/** Routing keys: how they are built, parsed and told apart. */
module Keys {
  import opened Domain

  /** A main queue's coordinates: the pair every copy of a notification must keep. */
  datatype Lane = Lane(channel: string, priority: string)

  predicate ValidLane(lane: Lane) { ValidChannel(lane.channel) && ValidPriority(lane.priority) }

  predicate NoDot(s: string) { '.' !in s }

  function RoutingKey(channel: string, priority: string): string {
    channel + "." + (if priority == "" then PRIORITY_NORMAL else priority)
  }

  function Digits(n: nat): string {
    if n < 10 then ["0123456789"[n]] else Digits(n / 10) + ["0123456789"[n % 10]]
  }

  function Itoa(n: int): string { if n < 0 then "-" + Digits(-n) else Digits(n) }

  function RetryKey(channel: string, priority: string, level: int): string {
    channel + "." + (priority + "." + ("retry." + Itoa(level)))
  }

  /** strings.SplitN for a one-character separator and n >= 1. */
  function SplitN(s: string, sep: char, n: nat): (parts: seq<string>)
    requires n >= 1
    ensures |parts| >= 1
    decreases n
  {
    var i := IndexOf(s, sep);
    if n == 1 || i == |s| then [s] else [s[..i]] + SplitN(s[i + 1..], sep, n - 1)
  }

  /** The index of the first `c` in `s`, or |s|. */
  function IndexOf(s: string, c: char): (i: nat)
    ensures i <= |s| && forall k :: 0 <= k < i ==> s[k] != c
    ensures i < |s| ==> s[i] == c
  {
    if s == "" || s[0] == c then 0 else 1 + IndexOf(s[1..], c)
  }

  function ChannelFromRoutingKey(key: string): string {
    if "email" <= key then "email"
    else if "sms" <= key then "sms"
    else if "push" <= key then "push"
    else "unknown"
  }

  function PriorityFromRoutingKey(key: string): string {
    var parts := SplitN(key, '.', 3);
    if |parts| < 2 then "" else if ValidPriority(parts[1]) then parts[1] else ""
  }

  function ResolvePriority(key: string, bodyPriority: string): string {
    var p := PriorityFromRoutingKey(key);
    if p != "" then p else if ValidPriority(bodyPriority) then bodyPriority else PRIORITY_NORMAL
  }

  // ---------------------------------------------------------------- parsing

  lemma CutAtDot(a: string, b: string, x: string, y: string)
    requires NoDot(a) && NoDot(b)
    requires a + "." + x == b + "." + y
    ensures a == b && x == y
  {
    var s := a + "." + x;
    assert s[|a|] == '.' && s[|b|] == '.';
    assert forall k :: 0 <= k < |a| ==> s[k] == a[k];
    assert forall k :: 0 <= k < |b| ==> s[k] == b[k];
    assert s[..|a|] == a && s[..|b|] == b;
    assert s[|a| + 1..] == x && s[|b| + 1..] == y;
  }

  lemma SplitHead(a: string, rest: string, n: nat)
    requires NoDot(a) && n >= 2
    ensures SplitN(a + "." + rest, '.', n) == [a] + SplitN(rest, '.', n - 1)
  {
    var s := a + "." + rest;
    assert s[|a|] == '.';
    assert forall k :: 0 <= k < |a| ==> s[k] == a[k];
    assert IndexOf(s, '.') == |a|;
    assert s[..|a|] == a && s[|a| + 1..] == rest;
  }

  lemma SplitWhole(s: string, n: nat)
    requires NoDot(s) && n >= 1
    ensures SplitN(s, '.', n) == [s]
  {
    assert IndexOf(s, '.') == |s|;
  }

  /** A key "c.p" or "c.p.anything": what its second segment is. */
  ghost predicate HasSegment(key: string, p: string, c: string, rest: string) {
    NoDot(c) && (key == c + "." + p || key == c + "." + (p + "." + rest))
  }

  lemma SplitStep(s: string, n: nat)
    requires n >= 2 && |SplitN(s, '.', n)| >= 2
    ensures var i := IndexOf(s, '.');
            && i < |s| && NoDot(s[..i]) && s == s[..i] + "." + s[i + 1..]
            && SplitN(s, '.', n) == [s[..i]] + SplitN(s[i + 1..], '.', n - 1)
  {
    var i := IndexOf(s, '.');
    assert s == s[..i] + [s[i]] + s[i + 1..];
  }

  lemma SegmentRead(key: string, p: string)
    requires SplitN(key, '.', 3) != [key] && SplitN(key, '.', 3)[1] == p
    ensures exists c, rest :: HasSegment(key, p, c, rest)
  {
    SplitStep(key, 3);
    var i := IndexOf(key, '.');
    var c, tail := key[..i], key[i + 1..];
    assert SplitN(tail, '.', 2)[0] == p;
    if |SplitN(tail, '.', 2)| < 2 {
      assert tail == p;
      assert HasSegment(key, p, c, "");
    } else {
      SplitStep(tail, 2);
      var rest := tail[IndexOf(tail, '.') + 1..];
      assert tail == p + "." + rest;
      assert HasSegment(key, p, c, rest);
    }
  }

  lemma SegmentFound(key: string, p: string, c: string, rest: string)
    requires ValidPriority(p) && HasSegment(key, p, c, rest)
    ensures PriorityFromRoutingKey(key) == p
  {
    assert NoDot(p);
    if key == c + "." + p {
      SplitHead(c, p, 3);
      SplitWhole(p, 2);
    } else {
      SplitHead(c, p + "." + rest, 3);
      SplitHead(p, rest, 2);
    }
  }

  /** PriorityFromRoutingKey answers p exactly for the keys whose second segment is the priority p. */
  lemma PriorityFromRoutingKeyExact(key: string, p: string)
    requires ValidPriority(p)
    ensures PriorityFromRoutingKey(key) == p <==> exists c, rest :: HasSegment(key, p, c, rest)
  {
    if PriorityFromRoutingKey(key) == p {
      SegmentRead(key, p);
    }
    forall c, rest | HasSegment(key, p, c, rest) ensures PriorityFromRoutingKey(key) == p {
      SegmentFound(key, p, c, rest);
    }
  }

  /** The authoritative priority of a delivery is the one its routing key was built from, whatever the body says. */
  lemma ResolveOwnKey(lane: Lane, bodyPriority: string)
    requires ValidLane(lane)
    ensures ResolvePriority(RoutingKey(lane.channel, lane.priority), bodyPriority) == lane.priority
  {
    var key := RoutingKey(lane.channel, lane.priority);
    ValidPriorityText(lane.priority);
    ValidChannelText(lane.channel);
    SegmentFound(key, lane.priority, lane.channel, "");
  }

  /** The key's segment decides if it is a priority; if not, the body does; "normal" if neither has one. */
  lemma ResolveExact(key: string, bodyPriority: string, p: string)
    ensures p in ["high", "normal", "low"] && (exists c, rest :: HasSegment(key, p, c, rest)) ==>
              ResolvePriority(key, bodyPriority) == p
    ensures (forall q, c, rest :: q in ["high", "normal", "low"] ==> !HasSegment(key, q, c, rest)) ==>
              ResolvePriority(key, bodyPriority)
              == if bodyPriority in ["high", "normal", "low"] then bodyPriority else "normal"
  {
    if p in ["high", "normal", "low"] {
      PriorityFromRoutingKeyExact(key, p);
    }
    var q := PriorityFromRoutingKey(key);
    if q != "" {
      PriorityFromRoutingKeyExact(key, q);
    }
  }

  /** What a key starts with is its channel. */
  lemma ChannelReads(key: string, channel: string)
    requires channel in ["email", "sms", "push"]
    ensures ChannelFromRoutingKey(key) == channel <==> channel <= key
    ensures ValidChannel(ChannelFromRoutingKey(key)) <==> "email" <= key || "sms" <= key || "push" <= key
  {
    assert channel[0] == if channel == "email" then 'e' else if channel == "sms" then 's' else 'p';
  }

  /** The key of an empty priority is that of "normal". */
  lemma KeyReads(channel: string, priority: string)
    ensures RoutingKey(channel, "") == channel + ".normal"
    ensures priority != "" ==> RoutingKey(channel, priority) == channel + "." + priority
  {
    assert channel + "." + "normal" == channel + ".normal";
  }

  // ---------------------------------------------------------------- decimal numbers

  function ReadDecimal(s: string): Option<nat> {
    if s == "" then Some(0)
    else
      var init, last := ReadDecimal(s[..|s| - 1]), s[|s| - 1];
      if init.Some? && '0' <= last <= '9' then Some(10 * init.value + (last as int - '0' as int)) else None
  }

  /** Decimal text reads back as its number and has no leading zero. */
  lemma {:induction false} ItoaReads(n: nat)
    ensures ReadDecimal(Itoa(n)) == Some(n) && Itoa(n) != "" && (Itoa(n)[0] == '0' <==> n == 0)
  {
    var s := Digits(n);
    var d := "0123456789"[n % 10];
    assert d as int - '0' as int == n % 10 && '0' <= d <= '9';
    if n < 10 {
      assert s[..0] == "";
    } else {
      ItoaReads(n / 10);
      assert s[..|s| - 1] == Digits(n / 10) && s[|s| - 1] == d;
    }
  }

  lemma ValidPriorityText(p: string)
    requires ValidPriority(p)
    ensures NoDot(p) && p != ""
  {
  }

  lemma ValidChannelText(c: string)
    requires ValidChannel(c)
    ensures NoDot(c) && c != ""
  {
  }
}
