/** Pagination: the newest-first listing of a fixed table, cut into pages. */
module Pages {
  import opened Domain
  import opened Keys
  import opened Listing

  // ---------------------------------------------------------------- what the database answers

  function Min(a: nat, b: nat): nat { if a < b then a else b }

  /** ORDER BY created_at DESC, id DESC. */
  predicate Before(a: Notification, b: Notification) {
    a.createdAt > b.createdAt || (a.createdAt == b.createdAt && a.id > b.id)
  }

  function InsertOrdered(s: seq<Notification>, n: Notification): seq<Notification> {
    if s == [] || Before(n, s[0]) then [n] + s else [s[0]] + InsertOrdered(s[1..], n)
  }

  /** The rows of a scan that satisfy all clauses, in order. */
  function Chosen(scan: seq<Notification>, clauses: seq<Clause>, args: seq<Arg>): seq<Notification> {
    if scan == [] then []
    else
      var rest := Chosen(scan[1..], clauses, args);
      if AllHold(clauses, args, scan[0]) then InsertOrdered(rest, scan[0]) else rest
  }

  /** LIMIT and OFFSET. */
  function Slice(s: seq<Notification>, offset: nat, limit: nat): seq<Notification> {
    s[Min(offset, |s|)..Min(offset + limit, |s|)]
  }

  /** None is an error: a bound that is not there, not a number, or negative. */
  function Answer(scan: seq<Notification>, q: Select, args: seq<Arg>): Option<seq<Notification>> {
    if !(1 <= q.limitAt <= |args| && 1 <= q.offsetAt <= |args|) then None
    else
      var limit, offset := args[q.limitAt - 1], args[q.offsetAt - 1];
      if limit.NumberArg? && offset.NumberArg? && limit.n >= 0 && offset.n >= 0
      then Some(Slice(Chosen(scan, q.clauses, args), offset.n, limit.n))
      else None
  }

  /** The database understands a text by its one reading. */
  method Query(scan: seq<Notification>, text: string, q: Select, args: seq<Arg>)
    returns (rows: Option<seq<Notification>>)
    requires text == SelectText(q)
    ensures rows == Answer(scan, q, args)
  {
    rows := Answer(scan, q, args);
  }

  // ---------------------------------------------------------------- List

  /** The rows meeting the filter, newest first. */
  function Listed(scan: seq<Notification>, f: ListFilter): seq<Notification> {
    if scan == [] then []
    else
      var rest := Listed(scan[1..], f);
      if Meets(f, scan[0]) then InsertOrdered(rest, scan[0]) else rest
  }

  lemma {:induction false} ChosenIsListed(scan: seq<Notification>, clauses: seq<Clause>, args: seq<Arg>, f: ListFilter)
    requires forall n :: AllHold(clauses, args, n) <==> Meets(f, n)
    ensures Chosen(scan, clauses, args) == Listed(scan, f)
  {
    if scan != [] {
      ChosenIsListed(scan[1..], clauses, args, f);
    }
  }

  lemma MoreArgs(clauses: seq<Clause>, args: seq<Arg>, more: seq<Arg>, f: ListFilter)
    requires Selects(clauses, args, f)
    ensures forall n :: AllHold(clauses, args + more, n) <==> Meets(f, n)
  {
    hide Compares, Meets;
    forall n ensures AllHold(clauses, args + more, n) <==> AllHold(clauses, args, n) {
      forall k | 0 <= k < |clauses| ensures Holds(clauses[k], args + more, n) == Holds(clauses[k], args, n) {
        assert (args + more)[k] == args[k];
      }
    }
  }

  /** The offset of a page, in unbounded arithmetic. */
  function Start(page: int, limit: int): int { (page - 1) * limit }

  /** Which of the database calls of one listing fail. */
  datatype ListFaults = ListFaults(begin: bool, count: bool, select: bool, commit: bool) {
    predicate Any() { begin || count || select || commit }
  }

  /** `scan` holds the table's rows in the order the database reads them; one snapshot serves both queries. */
  method List(scan: seq<Notification>, f: ListFilter, page: int, limit: int, fails: ListFaults)
    returns (items: seq<Notification>, total: nat, ok: bool)
    ensures var offset := AsInt64(Start(page, limit));
            && (ok <==> limit >= 0 && offset >= 0 && !fails.Any())
            && (!ok ==> items == [] && total == 0)
            && (ok ==> items == Slice(Listed(scan, f), offset, limit) && total == |Listed(scan, f)|)
  {
    hide Selects, Meets, AllHold;
    var where, args, clauses := BuildListWhere(f);
    if fails.begin || fails.count {
      return [], 0, false;
    }
    MoreArgs(clauses, args, [], f);
    assert args + [] == args;
    ChosenIsListed(scan, clauses, args, f);
    total := |Chosen(scan, clauses, args)|;
    var offset := AsInt64((page - 1) * limit);
    var pageArgs := args + [NumberArg(limit), NumberArg(offset)];
    MoreArgs(clauses, args, [NumberArg(limit), NumberArg(offset)], f);
    ChosenIsListed(scan, clauses, pageArgs, f);
    var q := Select(clauses, |args| + 1, |args| + 2);
    var text := where + (ORDER + (Itoa(|args| + 1) + (" OFFSET $" + Itoa(|args| + 2))));
    var rows := Query(scan, text, q, pageArgs);
    if fails.select || rows.None? || fails.commit {
      return [], 0, false;
    }
    return rows.value, total, true;
  }

  // ---------------------------------------------------------------- the listing

  ghost predicate Descending(s: seq<Notification>) { forall j, k :: 0 <= j < k < |s| ==> Before(s[j], s[k]) }

  /** The scan of a table: every row once. */
  ghost predicate IsScan(rows: map<Uuid, Notification>, scan: seq<Notification>) {
    && (forall id :: id in rows ==> rows[id].id == id)
    && (forall n :: n in scan <==> n.id in rows && rows[n.id] == n)
    && forall j, k :: 0 <= j < k < |scan| ==> scan[j].id != scan[k].id
  }

  lemma {:induction false} InsertKeepsOrder(s: seq<Notification>, n: Notification)
    requires Descending(s) && forall m :: m in s ==> m.id != n.id
    ensures Descending(InsertOrdered(s, n))
    ensures forall m :: m in InsertOrdered(s, n) <==> m in s || m == n
  {
    if s == [] {
    } else if Before(n, s[0]) {
      assert forall m :: m in [n] + s <==> m == n || m in s;
    } else {
      InsertKeepsOrder(s[1..], n);
      var rest := InsertOrdered(s[1..], n);
      assert forall m :: m in s <==> m == s[0] || m in s[1..];
      forall k | 0 <= k < |rest| ensures Before(s[0], rest[k]) {
        assert rest[k] in rest;
      }
    }
  }

  lemma {:induction false} ListedFrom(scan: seq<Notification>, f: ListFilter)
    requires forall j, k :: 0 <= j < k < |scan| ==> scan[j].id != scan[k].id
    ensures Descending(Listed(scan, f))
    ensures forall n :: n in Listed(scan, f) <==> n in scan && Meets(f, n)
  {
    hide Meets, Before;
    if scan != [] {
      ListedFrom(scan[1..], f);
      assert forall n :: n in scan <==> n == scan[0] || n in scan[1..];
      if Meets(f, scan[0]) {
        InsertKeepsOrder(Listed(scan[1..], f), scan[0]);
      }
    }
  }

  /** The listing of a table is strictly newest first, hence without repetition, and holds exactly the rows that meet
      the filter. */
  lemma ListedExact(rows: map<Uuid, Notification>, scan: seq<Notification>, f: ListFilter)
    requires IsScan(rows, scan)
    ensures Descending(Listed(scan, f))
    ensures forall n :: n in Listed(scan, f) <==> n.id in rows && rows[n.id] == n && Meets(f, n)
    // the order and the filter, field by field
    ensures forall j, k :: 0 <= j < k < |Listed(scan, f)| ==>
              var a, b := Listed(scan, f)[j], Listed(scan, f)[k];
              a.createdAt > b.createdAt || (a.createdAt == b.createdAt && a.id > b.id)
    ensures forall n :: n in Listed(scan, f) <==>
              && n.id in rows && rows[n.id] == n
              && (f.status == "pending" ==> n.status.Pending?) && (f.status == "delivered" ==> n.status.Delivered?)
              && (f.status == "failed" ==> n.status.Failed?) && (f.status == "cancelled" ==> n.status.Cancelled?)
              && f.status in ["", "pending", "delivered", "failed", "cancelled"]
              && (f.channel != "" ==> n.channel == f.channel)
              && (f.dateFrom.Some? ==> f.dateFrom.value <= n.createdAt)
              && (f.dateTo.Some? ==> n.createdAt <= f.dateTo.value)
  {
    ListedFrom(scan, f);
    forall n: Notification ensures
      (f.status != "" ==> StatusText(n.status) == f.status) <==>
        && (f.status == "pending" ==> n.status.Pending?) && (f.status == "delivered" ==> n.status.Delivered?)
        && (f.status == "failed" ==> n.status.Failed?) && (f.status == "cancelled" ==> n.status.Cancelled?)
        && f.status in ["", "pending", "delivered", "failed", "cancelled"]
    {
      StatusReads(n.status, f.status);
    }
  }

  lemma {:induction false} OrderUnique(s: seq<Notification>, t: seq<Notification>)
    requires Descending(s) && Descending(t) && forall n :: n in s <==> n in t
    ensures s == t
  {
    assert forall k :: 0 <= k < |t| ==> t[k] in s;
    assert forall k :: 0 <= k < |s| ==> s[k] in t;
    if s != [] && t != [] {
      assert s[0] in t && t[0] in s;
      assert s[0] == t[0];
      forall n ensures n in s[1..] <==> n in t[1..] {
        TailMembers(s, n);
        TailMembers(t, n);
      }
      OrderUnique(s[1..], t[1..]);
      assert s == [s[0]] + s[1..] && t == [t[0]] + t[1..];
    }
  }

  lemma TailMembers(s: seq<Notification>, n: Notification)
    requires Descending(s) && s != []
    ensures n in s[1..] <==> n in s && n != s[0]
  {
    if n in s[1..] {
      var k :| 0 <= k < |s[1..]| && s[1..][k] == n;
      assert Before(s[0], s[k + 1]);
    }
    assert s == [s[0]] + s[1..];
  }

  /** Whatever order the database reads the table in, the listing is the same. */
  lemma ScanIrrelevant(rows: map<Uuid, Notification>, scan: seq<Notification>, other: seq<Notification>, f: ListFilter)
    requires IsScan(rows, scan) && IsScan(rows, other)
    ensures Listed(scan, f) == Listed(other, f)
  {
    ListedExact(rows, scan, f);
    ListedExact(rows, other, f);
    OrderUnique(Listed(scan, f), Listed(other, f));
  }

  // ---------------------------------------------------------------- pages

  /** Pages 1 to p, one after the other. */
  function PagesUpTo(s: seq<Notification>, limit: nat, p: nat): seq<Notification> {
    if p == 0 then [] else PagesUpTo(s, limit, p - 1) + Slice(s, Start(p, limit), limit)
  }

  lemma {:induction false} PagesArePrefix(s: seq<Notification>, limit: nat, p: nat)
    ensures PagesUpTo(s, limit, p) == s[..Min(p * limit, |s|)]
  {
    if p > 0 {
      PagesArePrefix(s, limit, p - 1);
      assert (p - 1) * limit + limit == p * limit;
    }
  }

  /** Pages 1 to the total divided by the limit, rounded up, are the whole listing, each row once; and none of them
      overflows the offset computation. */
  lemma PagesCover(rows: map<Uuid, Notification>, scan: seq<Notification>, f: ListFilter, limit: nat)
    requires IsScan(rows, scan) && limit >= 1 && |Listed(scan, f)| <= 0x8000_0000_0000_0000
    ensures var s := Listed(scan, f);
            var last := (|s| + limit - 1) / limit;
            && PagesUpTo(s, limit, last) == s && Descending(s)
            && forall page :: 1 <= page <= last ==> AsInt64(Start(page, limit)) == Start(page, limit)
  {
    hide Before, IsScan, Listed, Start, AsInt64, PagesUpTo;
    ListedExact(rows, scan, f);
    var s := Listed(scan, f);
    var last := (|s| + limit - 1) / limit;
    Covers(|s|, limit);
    PagesArePrefix(s, limit, last);
    forall page | 1 <= page <= last ensures AsInt64(Start(page, limit)) == Start(page, limit) {
      StartBound(page, last, limit);
      NoWrap(Start(page, limit));
    }
  }

  lemma StartBound(page: nat, last: nat, limit: nat)
    requires 1 <= page <= last
    ensures 0 <= Start(page, limit) <= Start(last, limit)
  {
  }

  lemma NoWrap(n: nat)
    requires n < 0x8000_0000_0000_0000
    ensures AsInt64(n) == n
  {
  }

  lemma Covers(total: nat, limit: nat)
    requires limit >= 1
    ensures var last := (total + limit - 1) / limit; last * limit >= total && (last > 0 ==> Start(last, limit) < total)
  {
    var last := (total + limit - 1) / limit;
    assert total + limit - 1 == last * limit + (total + limit - 1) % limit;
    assert (last - 1) * limit == last * limit - limit;
  }

  /** The page's rows are answered iff its offset fits in 64 bits, or wraps to one that is past the end anyway. */
  lemma PageExact(s: seq<Notification>, page: nat, limit: nat)
    requires page >= 1 && limit >= 1 && |s| < 0x8000_0000_0000_0000
    ensures var start, offset := Start(page, limit), AsInt64(Start(page, limit));
            && start >= 0
            && (offset >= 0 && Slice(s, offset, limit) == Slice(s, start, limit) <==>
                start < 0x8000_0000_0000_0000 || offset >= |s|)
  {
    hide AsInt64, Start;
    StartBound(page, page, limit);
    OffsetExact(s, Start(page, limit), limit);
  }

  lemma OffsetExact(s: seq<Notification>, start: nat, limit: nat)
    requires limit >= 1 && |s| < 0x8000_0000_0000_0000
    ensures var offset := AsInt64(start);
            offset >= 0 && Slice(s, offset, limit) == Slice(s, start, limit) <==>
              start < 0x8000_0000_0000_0000 || offset >= |s|
  {
    var offset := AsInt64(start);
    if start >= 0x8000_0000_0000_0000 {
      assert Slice(s, start, limit) == [];
      if 0 <= offset < |s| {
        assert Slice(s, offset, limit)[0] == s[offset];
      }
    } else {
      NoWrap(start);
    }
  }

  /** Page 2^62 + 1 of 4 is answered with page 1. */
  lemma FarPageWraps(s: seq<Notification>)
    ensures AsInt64(Start(0x4000_0000_0000_0001, 4)) == 0
    ensures Slice(s, AsInt64(Start(0x4000_0000_0000_0001, 4)), 4) == Slice(s, 0, 4)
    ensures s != [] && |s| < 0x8000_0000_0000_0000 ==> Slice(s, 0, 4) != Slice(s, Start(0x4000_0000_0000_0001, 4), 4)
  {
    if s != [] {
      assert |Slice(s, 0, 4)| > 0;
    }
  }
}
