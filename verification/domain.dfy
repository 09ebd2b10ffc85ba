/** Notifications, their wire form, and the fault model shared by every component. */
module Domain {
  /** A UUID, read as the 128-bit number it denotes. */
  type Uuid = nat

  datatype Option<+T> = None | Some(value: T)

  const CHANNELS: seq<string> := ["email", "sms", "push"]
  const PRIORITIES: seq<string> := ["high", "normal", "low"]
  const PRIORITY_NORMAL := "normal"

  predicate ValidChannel(channel: string) { channel in CHANNELS }

  predicate ValidPriority(priority: string) { priority in PRIORITIES }

  datatype Status = Pending | Delivered | Failed | Cancelled

  datatype Notification = Notification(
    id: Uuid,
    recipient: string,
    channel: string,
    content: string,
    priority: string,
    status: Status,
    correlationId: Uuid,
    batchId: Option<Uuid>,
    idempotencyKey: Option<string>,
    createdAt: int)

  /** The JSON document published to the broker. */
  datatype NotificationMessage = NotificationMessage(
    id: Uuid,
    recipient: string,
    channel: string,
    content: string,
    priority: string,
    correlationId: Uuid)

  function MessageFrom(n: Notification): NotificationMessage {
    NotificationMessage(n.id, n.recipient, n.channel, n.content, n.priority, n.correlationId)
  }

  /** The worker's view of a message: fields that are not on the wire get their zero value. */
  function ToNotification(m: NotificationMessage): Notification {
    Notification(m.id, m.recipient, m.channel, m.content, m.priority, Pending, m.correlationId, None, None, 0)
  }

  lemma WireRoundTrip(n: Notification, m: NotificationMessage)
    ensures MessageFrom(ToNotification(m)) == m
    ensures MessageFrom(n) == m <==>
            ToNotification(m) == n.(status := Pending, batchId := None, idempotencyKey := None, createdAt := 0)
    ensures MessageFrom(n) == m <==>
            && m.id == n.id && m.recipient == n.recipient && m.channel == n.channel && m.content == n.content
            && m.priority == n.priority && m.correlationId == n.correlationId
  {
  }

  /** A message body: either something json.Unmarshal accepts, or poison. */
  datatype Body = Encoded(msg: NotificationMessage) | Poison(raw: string)

  /** How one database or broker call ends. `After` is an error reported although the effect took place,
      as when a publisher confirm or a commit acknowledgement is lost. */
  datatype Fault = NoFault | Before | After {
    predicate Reported() { !NoFault? }
    predicate Applied() { !Before? }
  }

  /** The classes of result of one provider call that the delivery code tells apart. */
  datatype Outcome = Accepted | DeliveryFailed | CircuitOpen | OtherError

  datatype AttemptStatus = Success | Retrying | CircuitOpened | DeadLettered

  /** One row of delivery_attempts. */
  datatype Attempt = Attempt(id: Uuid, number: int, status: AttemptStatus)

  /** Go's conversion to int32: two's-complement wrap. */
  function AsInt32(n: int): int { (n + 0x8000_0000) % 0x1_0000_0000 - 0x8000_0000 }

  /** Go's int arithmetic on 64-bit platforms wraps. */
  function AsInt64(n: int): int { (n + 0x8000_0000_0000_0000) % 0x1_0000_0000_0000_0000 - 0x8000_0000_0000_0000 }

  function HexDigit(d: nat): char
    requires d < 16
  {
    "0123456789abcdef"[d]
  }

  function Hex(n: nat, width: nat): string {
    if width == 0 then "" else Hex(n / 16, width - 1) + [HexDigit(n % 16)]
  }

  /** The 8-4-4-4-12 text form of a UUID. */
  function UuidText(id: Uuid): string {
    var h := Hex(id, 32);
    if |h| == 32 then h[..8] + "-" + h[8..12] + "-" + h[12..16] + "-" + h[16..20] + "-" + h[20..] else h
  }

  /** The value of a lower-case hexadecimal digit, None for other characters. */
  function FromHex(c: char): Option<nat> {
    if '0' <= c <= '9' then Some(c as int - '0' as int)
    else if 'a' <= c <= 'f' then Some(c as int - 'a' as int + 10)
    else None
  }

  function ReadHex(s: string): Option<nat> {
    if s == "" then Some(0)
    else
      var init, last := ReadHex(s[..|s| - 1]), FromHex(s[|s| - 1]);
      if init.Some? && last.Some? then Some(16 * init.value + last.value) else None
  }

  lemma {:induction false} HexReads(id: nat, width: nat)
    requires id < Power(16, width)
    ensures |Hex(id, width)| == width && ReadHex(Hex(id, width)) == Some(id)
  {
    if width > 0 {
      assert id / 16 < Power(16, width - 1);
      HexReads(id / 16, width - 1);
      var s, d := Hex(id, width), HexDigit(id % 16);
      assert s[..|s| - 1] == Hex(id / 16, width - 1) && s[|s| - 1] == d;
      assert FromHex(d) == Some(id % 16);
    }
  }

  function Power(base: nat, n: nat): nat { if n == 0 then 1 else base * Power(base, n - 1) }

  /** The text form of a UUID has dashes in the usual four places, and its digits read back as the UUID. */
  lemma UuidReads(id: Uuid)
    requires id < Power(16, 32)
    ensures var t := UuidText(id);
            && |t| == 36 && t[8] == t[13] == t[18] == t[23] == '-'
            && ReadHex(t[..8] + t[9..13] + t[14..18] + t[19..23] + t[24..]) == Some(id)
  {
    hide Hex, ReadHex, Power;
    HexReads(id, 32);
    var t, h := UuidText(id), Hex(id, 32);
    assert t[..8] == h[..8] && t[9..13] == h[8..12] && t[14..18] == h[12..16] && t[19..23] == h[16..20];
    assert t[24..] == h[20..];
    assert t[..8] + t[9..13] + t[14..18] + t[19..23] + t[24..] == h;
  }
}
