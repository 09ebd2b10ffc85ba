/** Listing notifications: the generated WHERE clause, its placeholders, and pagination. */
module Listing {
  import opened Domain
  import opened Keys

  datatype ListFilter = ListFilter(status: string, channel: string, dateFrom: Option<int>, dateTo: Option<int>)

  function StatusText(status: Status): string {
    match status
    case Pending => "pending"
    case Delivered => "delivered"
    case Failed => "failed"
    case Cancelled => "cancelled"
  }

  /** The row meets every field of the filter that is set. */
  predicate Meets(f: ListFilter, n: Notification) {
    && (f.status != "" ==> StatusText(n.status) == f.status)
    && (f.channel != "" ==> n.channel == f.channel)
    && (f.dateFrom.Some? ==> n.createdAt >= f.dateFrom.value)
    && (f.dateTo.Some? ==> n.createdAt <= f.dateTo.value)
  }

  lemma StatusReads(status: Status, text: string)
    ensures StatusText(status) == text <==>
              && text in ["pending", "delivered", "failed", "cancelled"]
              && (text == "pending" ==> status.Pending?) && (text == "delivered" ==> status.Delivered?)
              && (text == "failed" ==> status.Failed?) && (text == "cancelled" ==> status.Cancelled?)
  {
    assert "pending"[0] == 'p' && "delivered"[0] == 'd' && "failed"[0] == 'f' && "cancelled"[0] == 'c';
  }

  // ---------------------------------------------------------------- SQL text and what it means

  datatype Comparison = StatusIs | ChannelIs | CreatedFrom | CreatedTo

  datatype Clause = Clause(comparison: Comparison, placeholder: nat)

  datatype Arg = TextArg(s: string) | TimeArg(t: int) | NumberArg(n: int)

  function Op(c: Comparison): string {
    match c
    case StatusIs => "status = $"
    case ChannelIs => "channel = $"
    case CreatedFrom => "created_at >= $"
    case CreatedTo => "created_at <= $"
  }

  function ClauseText(c: Clause): string { Op(c.comparison) + Itoa(c.placeholder) }

  function Join(parts: seq<string>, separator: string): string {
    if parts == [] then "" else if |parts| == 1 then parts[0] else parts[0] + (separator + Join(parts[1..], separator))
  }

  function Texts(clauses: seq<Clause>): (texts: seq<string>)
    ensures |texts| == |clauses|
  {
    seq(|clauses|, k requires 0 <= k < |clauses| => ClauseText(clauses[k]))
  }

  function WhereText(clauses: seq<Clause>): string {
    if clauses == [] then "" else " WHERE " + Join(Texts(clauses), " AND ")
  }

  predicate Compares(comparison: Comparison, a: Arg, n: Notification) {
    match comparison
    case StatusIs => a == TextArg(StatusText(n.status))
    case ChannelIs => a == TextArg(n.channel)
    case CreatedFrom => a.TimeArg? && n.createdAt >= a.t
    case CreatedTo => a.TimeArg? && n.createdAt <= a.t
  }

  /** Does a row satisfy a clause, with these positional arguments? */
  predicate Holds(c: Clause, args: seq<Arg>, n: Notification) {
    && 1 <= c.placeholder <= |args|
    && Compares(c.comparison, args[c.placeholder - 1], n)
  }

  predicate AllHold(clauses: seq<Clause>, args: seq<Arg>, n: Notification) {
    forall k :: 0 <= k < |clauses| ==> Holds(clauses[k], args, n)
  }

  lemma OneMoreHolds(clauses: seq<Clause>, args: seq<Arg>, c: Clause, a: Arg, n: Notification)
    requires |clauses| == |args| && forall k :: 0 <= k < |clauses| ==> clauses[k].placeholder == k + 1
    ensures AllHold(clauses + [c], args + [a], n) <==> AllHold(clauses, args, n) && Holds(c, args + [a], n)
  {
    forall k | 0 <= k < |clauses| ensures Holds(clauses[k], args + [a], n) == Holds(clauses[k], args, n) {
      assert (args + [a])[k] == args[k];
    }
    assert forall k :: 0 <= k < |clauses| ==> (clauses + [c])[k] == clauses[k];
    assert (clauses + [c])[|clauses|] == c;
  }

  /** Clauses and arguments built so far: numbered from 1, and accepting exactly the rows that meet f. */
  ghost predicate Selects(clauses: seq<Clause>, args: seq<Arg>, f: ListFilter) {
    && |clauses| == |args| && (forall k :: 0 <= k < |clauses| ==> clauses[k].placeholder == k + 1)
    && forall n :: AllHold(clauses, args, n) <==> Meets(f, n)
  }

  /** One more argument and its clause narrow the rows accepted to those that also satisfy it. */
  lemma SelectsMore(clauses: seq<Clause>, args: seq<Arg>, f: ListFilter, comparison: Comparison, a: Arg, f': ListFilter)
    requires Selects(clauses, args, f)
    requires forall n :: Meets(f', n) <==> Meets(f, n) && Compares(comparison, a, n)
    ensures var clauses' := clauses + [Clause(comparison, |args| + 1)];
            && Selects(clauses', args + [a], f')
            && Texts(clauses') == Texts(clauses) + [Op(comparison) + Itoa(|args| + 1)]
  {
    hide Compares, Meets;
    var c := Clause(comparison, |args| + 1);
    assert (args + [a])[|args|] == a;
    forall n ensures AllHold(clauses + [c], args + [a], n) <==> Meets(f', n) {
      OneMoreHolds(clauses, args, c, a, n);
    }
  }

  /** The text is that of clauses which, with the returned arguments, accept exactly the rows meeting the filter. */
  method BuildListWhere(f: ListFilter) returns (text: string, args: seq<Arg>, clauses: seq<Clause>)
    ensures Selects(clauses, args, f) && text == WhereText(clauses)
  {
    hide Join, Itoa, Selects, StatusText;
    var parts: seq<string> := [];
    args, clauses := [], [];
    ghost var f0 := ListFilter("", "", None, None);
    NothingSelects();
    if f.status != "" {
      SelectsMore(clauses, args, f0, StatusIs, TextArg(f.status), f0.(status := f.status));
      args := args + [TextArg(f.status)];
      clauses := clauses + [Clause(StatusIs, |args|)];
      parts := parts + ["status = $" + Itoa(|args|)];
    }
    ghost var f1 := f0.(status := f.status);
    if f.channel != "" {
      SelectsMore(clauses, args, f1, ChannelIs, TextArg(f.channel), f1.(channel := f.channel));
      args := args + [TextArg(f.channel)];
      clauses := clauses + [Clause(ChannelIs, |args|)];
      parts := parts + ["channel = $" + Itoa(|args|)];
    }
    ghost var f2 := f1.(channel := f.channel);
    if f.dateFrom.Some? {
      SelectsMore(clauses, args, f2, CreatedFrom, TimeArg(f.dateFrom.value), f2.(dateFrom := f.dateFrom));
      args := args + [TimeArg(f.dateFrom.value)];
      clauses := clauses + [Clause(CreatedFrom, |args|)];
      parts := parts + ["created_at >= $" + Itoa(|args|)];
    }
    ghost var f3 := f2.(dateFrom := f.dateFrom);
    if f.dateTo.Some? {
      SelectsMore(clauses, args, f3, CreatedTo, TimeArg(f.dateTo.value), f3.(dateTo := f.dateTo));
      args := args + [TimeArg(f.dateTo.value)];
      clauses := clauses + [Clause(CreatedTo, |args|)];
      parts := parts + ["created_at <= $" + Itoa(|args|)];
    }
    assert f3.(dateTo := f.dateTo) == f;
    assert parts == Texts(clauses);
    if |parts| == 0 {
      text := "";
    } else {
      text := " WHERE " + Join(parts, " AND ");
    }
  }

  lemma NothingSelects()
    ensures Selects([], [], ListFilter("", "", None, None))
  {
  }

  lemma ClausesRead()
    ensures ClauseText(Clause(StatusIs, 1)) == "status = $1" && ClauseText(Clause(ChannelIs, 2)) == "channel = $2"
    ensures ClauseText(Clause(CreatedFrom, 3)) == "created_at >= $3"
    ensures ClauseText(Clause(CreatedTo, 4)) == "created_at <= $4"
  {
    assert Itoa(1) == "1" && Itoa(2) == "2" && Itoa(3) == "3" && Itoa(4) == "4";
    assert "status = $" + "1" == "status = $1" && "channel = $" + "2" == "channel = $2";
    assert "created_at >= $" + "3" == "created_at >= $3" && "created_at <= $" + "4" == "created_at <= $4";
  }

  lemma JoinFour(a: string, b: string, c: string, d: string, separator: string)
    ensures Join([a, b, c, d], separator) == a + (separator + (b + (separator + (c + (separator + d)))))
  {
    assert Join([d], separator) == d;
    assert [c, d][1..] == [d] && Join([c, d], separator) == c + (separator + d);
    assert [b, c, d][1..] == [c, d] && Join([b, c, d], separator) == b + (separator + (c + (separator + d)));
    assert [a, b, c, d][1..] == [b, c, d];
  }

  /** With every field set: the text, and what its clauses ask of a row. */
  lemma FullWhere(s: string, c: string, from: int, to: int, n: Notification)
    ensures var clauses := [Clause(StatusIs, 1), Clause(ChannelIs, 2), Clause(CreatedFrom, 3), Clause(CreatedTo, 4)];
            && WhereText(clauses)
               == " WHERE " + ("status = $1" + (" AND " + ("channel = $2" + (" AND " + ("created_at >= $3"
                  + (" AND " + "created_at <= $4"))))))
            && (AllHold(clauses, [TextArg(s), TextArg(c), TimeArg(from), TimeArg(to)], n) <==>
                  StatusText(n.status) == s && n.channel == c && n.createdAt >= from && n.createdAt <= to)
  {
    hide StatusText, ClauseText, Join;
    var clauses := [Clause(StatusIs, 1), Clause(ChannelIs, 2), Clause(CreatedFrom, 3), Clause(CreatedTo, 4)];
    var args := [TextArg(s), TextArg(c), TimeArg(from), TimeArg(to)];
    ClausesRead();
    assert Texts(clauses) == ["status = $1", "channel = $2", "created_at >= $3", "created_at <= $4"];
    JoinFour("status = $1", "channel = $2", "created_at >= $3", "created_at <= $4", " AND ");
    assert AllHold(clauses, args, n) <==>
           Holds(clauses[0], args, n) && Holds(clauses[1], args, n) && Holds(clauses[2], args, n)
           && Holds(clauses[3], args, n);
  }

  // ---------------------------------------------------------------- the whole query

  datatype Select = Select(clauses: seq<Clause>, limitAt: nat, offsetAt: nat)

  const ORDER := "\nORDER BY created_at DESC, id DESC\nLIMIT $"

  /** Everything after the table's name. */
  function SelectText(q: Select): string { WhereText(q.clauses) + (ORDER + Bounds(q)) }

  function Bounds(q: Select): string { Itoa(q.limitAt) + (" OFFSET $" + Itoa(q.offsetAt)) }

  /** Without a filter: newest first, the two bounds as the only arguments. */
  lemma PlainSelect()
    ensures SelectText(Select([], 1, 2))
            == "\nORDER BY created_at DESC, id DESC\nLIMIT $" + ("1" + (" OFFSET $" + "2"))
  {
    assert Itoa(1) == "1" && Itoa(2) == "2";
  }

  /** What comes after " WHERE ". */
  function Conditions(clauses: seq<Clause>, end: string): string
    requires clauses != []
  {
    ClauseText(clauses[0]) + if |clauses| == 1 then end else " AND " + Conditions(clauses[1..], end)
  }

  lemma {:induction false} JoinIsConditions(clauses: seq<Clause>, end: string)
    requires clauses != []
    ensures Join(Texts(clauses), " AND ") + end == Conditions(clauses, end)
  {
    hide ClauseText;
    if |clauses| > 1 {
      assert Texts(clauses)[1..] == Texts(clauses[1..]);
      JoinIsConditions(clauses[1..], end);
    }
  }

  predicate Digit(c: char) { '0' <= c <= '9' }

  predicate AllDigits(s: string) { forall k :: 0 <= k < |s| ==> Digit(s[k]) }

  predicate NoDigitFirst(s: string) { s == "" || !Digit(s[0]) }

  lemma {:induction false} DigitsAreDigits(n: nat)
    ensures AllDigits(Digits(n)) && Digits(n) != ""
  {
    if n >= 10 {
      DigitsAreDigits(n / 10);
    }
  }

  lemma {:induction false} DigitsDiffer(m: nat, n: nat)
    requires Digits(m) == Digits(n)
    ensures m == n
  {
    if m >= 10 {
      DigitsAreDigits(m / 10);
    }
    if n >= 10 {
      DigitsAreDigits(n / 10);
    }
    if m >= 10 && n >= 10 {
      LastDigit(m / 10, n / 10, m % 10, n % 10);
      DigitsDiffer(m / 10, n / 10);
    }
  }

  lemma LastDigit(a: nat, b: nat, i: nat, j: nat)
    requires i < 10 && j < 10 && Digits(a) + ["0123456789"[i]] == Digits(b) + ["0123456789"[j]]
    ensures Digits(a) == Digits(b) && i == j
  {
    var s, t := Digits(a) + ["0123456789"[i]], Digits(b) + ["0123456789"[j]];
    assert s[|s| - 1] == t[|t| - 1];
    assert s[..|s| - 1] == Digits(a) && t[..|t| - 1] == Digits(b);
  }

  lemma NumberCut(m: nat, n: nat, x: string, y: string)
    requires NoDigitFirst(x) && NoDigitFirst(y) && Itoa(m) + x == Itoa(n) + y
    ensures m == n && x == y
  {
    DigitsAreDigits(m);
    DigitsAreDigits(n);
    var a, b := Itoa(m), Itoa(n);
    var s := a + x;
    assert forall k :: 0 <= k < |a| ==> s[k] == a[k];
    assert forall k :: 0 <= k < |b| ==> s[k] == b[k];
    assert x != "" ==> s[|a|] == x[0];
    assert y != "" ==> s[|b|] == y[0];
    assert s[..|a|] == a && s[..|b|] == b && s[|a|..] == x && s[|b|..] == y;
    DigitsDiffer(m, n);
  }

  lemma OpCut(c: Comparison, d: Comparison, x: string, y: string)
    requires Op(c) + x == Op(d) + y
    ensures c == d && x == y
  {
    var s, t := Op(c) + x, Op(d) + y;
    assert s[0] == t[0] && s[1] == t[1];
    if (c.CreatedFrom? || c.CreatedTo?) && (d.CreatedFrom? || d.CreatedTo?) {
      assert s[11] == t[11];
    }
    assert c == d;
    assert s[|Op(c)|..] == x && t[|Op(d)|..] == y;
  }

  lemma ClauseCut(c: Clause, d: Clause, x: string, y: string)
    requires NoDigitFirst(x) && NoDigitFirst(y) && ClauseText(c) + x == ClauseText(d) + y
    ensures c == d && x == y
  {
    hide Op, Itoa;
    assert ClauseText(c) + x == Op(c.comparison) + (Itoa(c.placeholder) + x);
    assert ClauseText(d) + y == Op(d.comparison) + (Itoa(d.placeholder) + y);
    OpCut(c.comparison, d.comparison, Itoa(c.placeholder) + x, Itoa(d.placeholder) + y);
    NumberCut(c.placeholder, d.placeholder, x, y);
  }

  lemma {:induction false} ConditionsCut(cs: seq<Clause>, ds: seq<Clause>, x: string, y: string)
    requires cs != [] && ds != [] && "\n" <= x && "\n" <= y && Conditions(cs, x) == Conditions(ds, y)
    ensures cs == ds && x == y
  {
    hide ClauseText;
    var xs := if |cs| == 1 then x else " AND " + Conditions(cs[1..], x);
    var ys := if |ds| == 1 then y else " AND " + Conditions(ds[1..], y);
    ClauseCut(cs[0], ds[0], xs, ys);
    if |cs| > 1 {
      var p, q := Conditions(cs[1..], x), Conditions(ds[1..], y);
      assert xs[|" AND "|..] == p && ys[|" AND "|..] == q;
      ConditionsCut(cs[1..], ds[1..], x, y);
    }
    assert cs == [cs[0]] + cs[1..] && ds == [ds[0]] + ds[1..];
  }

  /** The text after the clauses. */
  function Ending(q: Select): string { ORDER + Bounds(q) }

  lemma SelectShape(q: Select)
    ensures SelectText(q) == if q.clauses == [] then Ending(q) else " WHERE " + Conditions(q.clauses, Ending(q))
    ensures "\n" <= Ending(q)
  {
    hide Join, Texts, Conditions, Bounds;
    if q.clauses != [] {
      JoinIsConditions(q.clauses, Ending(q));
    }
  }

  /** The text has only one reading. */
  lemma SelectReadsOnce(p: Select, q: Select)
    requires SelectText(p) == SelectText(q)
    ensures p == q
  {
    hide SelectText, Conditions, Bounds, Ending;
    SelectShape(p);
    SelectShape(q);
    var s := SelectText(p);
    assert s[0] == (if p.clauses == [] then '\n' else ' ') && s[0] == (if q.clauses == [] then '\n' else ' ');
    if p.clauses != [] {
      assert s[|" WHERE "|..] == Conditions(p.clauses, Ending(p));
      assert s[|" WHERE "|..] == Conditions(q.clauses, Ending(q));
      ConditionsCut(p.clauses, q.clauses, Ending(p), Ending(q));
    }
    EndingCut(p, q);
  }

  lemma EndingCut(p: Select, q: Select)
    requires Ending(p) == Ending(q)
    ensures p.limitAt == q.limitAt && p.offsetAt == q.offsetAt
  {
    hide Bounds;
    assert Ending(p)[|ORDER|..] == Bounds(p) && Ending(q)[|ORDER|..] == Bounds(q);
    BoundsCut(p, q);
  }

  lemma BoundsCut(p: Select, q: Select)
    requires Bounds(p) == Bounds(q)
    ensures p.limitAt == q.limitAt && p.offsetAt == q.offsetAt
  {
    hide Itoa;
    var x, y := " OFFSET $" + Itoa(p.offsetAt), " OFFSET $" + Itoa(q.offsetAt);
    NumberCut(p.limitAt, q.limitAt, x, y);
    assert x[|" OFFSET $"|..] == Itoa(p.offsetAt) && y[|" OFFSET $"|..] == Itoa(q.offsetAt);
    assert Itoa(p.offsetAt) + "" == Itoa(q.offsetAt) + "";
    NumberCut(p.offsetAt, q.offsetAt, "", "");
  }
}
