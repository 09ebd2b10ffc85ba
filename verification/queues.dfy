/** Queue contents by place: what waits in one queue, and taking messages from its front. */
module Queues {
  import opened Routing
  import opened World
  import opened Protocol

  predicate WaitsAt(e: Entry, place: Place) { e.place == place && e.handling.Ready? }

  /** The messages waiting in a queue, oldest first. */
  function Waiting(entries: seq<Entry>, place: Place): seq<Entry> {
    if entries == [] then []
    else (if WaitsAt(entries[0], place) then [entries[0]] else []) + Waiting(entries[1..], place)
  }

  /** The index of the message a queue hands out next; |entries| if none waits. */
  function Front(entries: seq<Entry>, place: Place): (i: nat)
    ensures i <= |entries| && (i < |entries| ==> WaitsAt(entries[i], place))
    ensures forall j :: 0 <= j < i ==> !WaitsAt(entries[j], place)
  {
    if entries == [] || WaitsAt(entries[0], place) then 0 else 1 + Front(entries[1..], place)
  }

  /** The entries without the first n messages waiting at a place. */
  function Without(entries: seq<Entry>, place: Place, n: nat): seq<Entry>
    decreases n
  {
    var i := Front(entries, place);
    if n == 0 || i == |entries| then entries else Without(Remove(entries, i), place, n - 1)
  }

  lemma {:induction false} FrontWaits(entries: seq<Entry>, place: Place)
    ensures var i := Front(entries, place);
            && (i < |entries| <==> Waiting(entries, place) != [])
            && (i < |entries| ==> entries[i] == Waiting(entries, place)[0])
  {
    if entries != [] {
      FrontWaits(entries[1..], place);
    }
  }

  lemma WaitingCons(e: Entry, rest: seq<Entry>, place: Place)
    ensures Waiting([e] + rest, place) == (if WaitsAt(e, place) then [e] else []) + Waiting(rest, place)
  {
    assert ([e] + rest)[1..] == rest;
  }

  lemma {:induction false} WaitingConcat(s: seq<Entry>, t: seq<Entry>, place: Place)
    ensures Waiting(s + t, place) == Waiting(s, place) + Waiting(t, place)
  {
    if s == [] {
      assert s + t == t;
    } else {
      hide Waiting, WaitsAt;
      var e, rest := s[0], s[1..];
      WaitingConcat(rest, t, place);
      WaitingCons(e, rest + t, place);
      WaitingCons(e, rest, place);
      assert s == [e] + rest && s + t == [e] + (rest + t);
    }
  }

  lemma {:induction false} NoneWaits(entries: seq<Entry>, place: Place)
    requires forall k :: 0 <= k < |entries| ==> !WaitsAt(entries[k], place)
    ensures Waiting(entries, place) == []
  {
    if entries != [] {
      NoneWaits(entries[1..], place);
    }
  }

  /** Taking the front of one queue shortens that queue by one, and leaves every other as it was. */
  lemma TakeFront(entries: seq<Entry>, place: Place, other: Place)
    requires Waiting(entries, place) != []
    ensures var i := Front(entries, place);
            && i < |entries| && entries[i] == Waiting(entries, place)[0]
            && Waiting(Remove(entries, i), other)
               == if other == place then Waiting(entries, place)[1..] else Waiting(entries, other)
  {
    FrontWaits(entries, place);
    var i := Front(entries, place);
    var before, e, behind := entries[..i], entries[i], entries[i + 1..];
    NoneWaits(before, place);
    assert entries == before + ([e] + behind);
    hide Waiting, Front;
    WaitingConcat(before, [e] + behind, other);
    WaitingConcat([e], behind, other);
    WaitingConcat(before, behind, other);
    WaitingOne(e, other);
  }

  lemma WaitingOne(e: Entry, place: Place)
    ensures Waiting([e], place) == if WaitsAt(e, place) then [e] else []
  {
    assert [e][1..] == [];
  }

  /** Taking n messages from one queue shortens that queue by its first n, and leaves every other as it was. */
  lemma {:induction false} WithoutQueues(entries: seq<Entry>, place: Place, n: nat, other: Place)
    requires n <= |Waiting(entries, place)|
    ensures Waiting(Without(entries, place, n), other)
            == if other == place then Waiting(entries, place)[n..] else Waiting(entries, other)
    decreases n
  {
    hide Waiting, Front, WaitsAt;
    if n > 0 {
      TakeFront(entries, place, place);
      TakeFront(entries, place, other);
      WithoutQueues(Remove(entries, Front(entries, place)), place, n - 1, other);
    }
  }

  /** After n messages the next one handed out is number n, and taking it is taking n + 1. */
  lemma {:induction false} WithoutNext(entries: seq<Entry>, place: Place, n: nat)
    requires n < |Waiting(entries, place)|
    ensures var left := Without(entries, place, n);
            var i := Front(left, place);
            && i < |left| && left[i] == Waiting(entries, place)[n]
            && Remove(left, i) == Without(entries, place, n + 1)
    decreases n
  {
    hide Waiting, Front, WaitsAt;
    TakeFront(entries, place, place);
    if n > 0 {
      WithoutNext(Remove(entries, Front(entries, place)), place, n - 1);
    } else {
      assert Without(Remove(entries, Front(entries, place)), place, 0) == Remove(entries, Front(entries, place));
    }
  }

  /** What arrives behind a queue's front does not change the front. */
  lemma FrontConcat(s: seq<Entry>, t: seq<Entry>, place: Place)
    requires Front(s, place) < |s|
    ensures Front(s + t, place) == Front(s, place)
  {
    var i, j := Front(s + t, place), Front(s, place);
    assert (s + t)[j] == s[j];
    assert forall k :: 0 <= k < j ==> (s + t)[k] == s[k];
  }
}
