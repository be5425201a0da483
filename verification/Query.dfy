/** The SQL query writer: numbered placeholders and the arguments bound to them. */
module Query {
  import opened Basics

  datatype Operator =
    | Equal | NotEqual | Greater | GreaterEqual | Less | LessEqual | In | NotIn | Between | Unknown

  datatype Filter<V> = Filter(op: Operator, values: seq<V>)

  /** An argument of the query: a value of a filter, or the limit or offset. */
  datatype Arg<V> = Value(value: V) | Bound(n: nat)

  /** A piece of query text, or the placeholder `$n`. */
  datatype Token = Text(text: string) | Hole(n: nat)

  datatype Written<V> = Written(query: seq<Token>, countQuery: seq<Token>, args: seq<Arg<V>>)

  /** How the operators that compare with one value are written. */
  function Sign(op: Operator): string {
    match op
    case Equal => " = "
    case NotEqual => " != "
    case Greater => " > "
    case GreaterEqual => " >= "
    case Less => " < "
    case LessEqual => " <= "
    case _ => ""
  }

  predicate IsList(op: Operator) {
    op == In || op == NotIn
  }

  function ListOpen(op: Operator): string {
    if op == In then " IN (" else " NOT IN ("
  }

  function OrderDirection(descending: bool): string {
    if descending then "DESC" else "ASC"
  }

  /** The filter has the values its operator reads. */
  predicate Enough<V>(f: Filter<V>) {
    if f.op == Between then |f.values| >= 2 else IsList(f.op) || f.op == Unknown || |f.values| >= 1
  }

  // ------------------------------------------------- what the text should say

  /** Query text with the arguments in their places. */
  datatype Piece<V> = Said(text: string) | Given(arg: Arg<V>)

  /** The first n values of a list, with commas between them. */
  function Listed<V>(values: seq<V>, n: nat): seq<Piece<V>>
    requires n <= |values|
  {
    if n == 0 then []
    else if n == 1 then [Given(Value(values[n - 1]))]
    else Listed(values, n - 1) + [Said(", "), Given(Value(values[n - 1]))]
  }

  /** A filter as a condition on its own parameter, with its own values. */
  function Meant<V>(p: string, f: Filter<V>): seq<Piece<V>>
    requires Enough(f) && f.op != Unknown
  {
    if IsList(f.op) then [Said(p + ListOpen(f.op))] + Listed(f.values, |f.values|) + [Said(")")]
    else if f.op == Between then [Said(p + " BETWEEN "), Given(Value(f.values[0])), Said(" AND "), Given(Value(f.values[1]))]
    else [Said(p + Sign(f.op)), Given(Value(f.values[0]))]
  }

  /** One more filter; unknown operators are passed over. */
  function And<V>(before: seq<Piece<V>>, p: string, f: Filter<V>): seq<Piece<V>>
    requires Enough(f)
  {
    if f.op == Unknown then before
    else if before == [] then Meant(p, f)
    else before + [Said(" AND ")] + Meant(p, f)
  }

  /** The conditions of all filters with a known operator, in order, joined by AND. */
  function MeantAll<V>(filters: map<string, Filter<V>>, order: seq<string>): seq<Piece<V>>
    requires AllEnough(filters, order)
  {
    if order == [] then []
    else
      And(MeantAll(filters, order[..|order| - 1]), order[|order| - 1], filters[order[|order| - 1]])
  }

  predicate AllEnough<V>(filters: map<string, Filter<V>>, order: seq<string>) {
    forall i :: 0 <= i < |order| ==> order[i] in filters && Enough(filters[order[i]])
  }

  /** The placeholders of a text, left to right. */
  function Holes(tokens: seq<Token>): seq<nat> {
    if tokens == [] then []
    else Holes(tokens[..|tokens| - 1]) + if tokens[|tokens| - 1].Hole? then [tokens[|tokens| - 1].n] else []
  }

  function Range(from: nat, n: nat): seq<nat> {
    seq(n, i requires 0 <= i => from + i)
  }

  predicate InRange<V>(tokens: seq<Token>, args: seq<Arg<V>>) {
    forall i :: 0 <= i < |tokens| && tokens[i].Hole? ==> 1 <= tokens[i].n <= |args|
  }

  /** What the database makes of the text: each placeholder is replaced by its argument. */
  function Filled<V>(tokens: seq<Token>, args: seq<Arg<V>>): seq<Piece<V>>
    requires InRange(tokens, args)
  {
    seq(|tokens|, i requires 0 <= i < |tokens| =>
      match tokens[i]
      case Text(s) => Said(s)
      case Hole(n) => Given(args[n - 1]))
  }

  // ------------------------------------------------ the text that is written

  function ArgsOf<V>(f: Filter<V>): seq<Arg<V>>
    requires Enough(f)
  {
    if f.op == Unknown then []
    else if IsList(f.op) then seq(|f.values|, i requires 0 <= i < |f.values| => Value(f.values[i]))
    else if f.op == Between then [Value(f.values[0]), Value(f.values[1])]
    else [Value(f.values[0])]
  }

  function HoleList(from: nat, n: nat): seq<Token> {
    if n == 0 then []
    else if n == 1 then [Hole(from)]
    else HoleList(from, n - 1) + [Text(", "), Hole(from + n - 1)]
  }

  /** The condition of a filter whose first placeholder is number k. */
  function Condition<V>(p: string, f: Filter<V>, k: nat): seq<Token>
    requires Enough(f) && f.op != Unknown
  {
    if IsList(f.op) then [Text(p + ListOpen(f.op))] + HoleList(k, |f.values|) + [Text(")")]
    else if f.op == Between then [Text(p + " BETWEEN "), Hole(k), Text(" AND "), Hole(k + 1)]
    else [Text(p + Sign(f.op)), Hole(k)]
  }

  function ArgsOfAll<V>(filters: map<string, Filter<V>>, order: seq<string>): seq<Arg<V>>
    requires AllEnough(filters, order)
  {
    if order == [] then []
    else ArgsOfAll(filters, order[..|order| - 1]) + ArgsOf(filters[order[|order| - 1]])
  }

  function Join(parts: seq<seq<Token>>, separator: string): seq<Token> {
    if parts == [] then []
    else if |parts| == 1 then parts[0]
    else Join(parts[..|parts| - 1], separator) + [Text(separator)] + parts[|parts| - 1]
  }

  function AddCondition<V>(parts: seq<seq<Token>>, p: string, f: Filter<V>, k: nat): seq<seq<Token>>
    requires Enough(f)
  {
    if f.op == Unknown then parts else parts + [Condition(p, f, k)]
  }

  function Conditions<V>(filters: map<string, Filter<V>>, order: seq<string>): seq<seq<Token>>
    requires AllEnough(filters, order)
  {
    if order == [] then []
    else
      var front, p := order[..|order| - 1], order[|order| - 1];
      AddCondition(Conditions(filters, front), p, filters[p], |ArgsOfAll(filters, front)| + 1)
  }

  // --------------------------------------------------------- reading the text

  /** The text has the placeholders from, from + 1, ... (n of them) in this order, and filled in it says
      the given pieces. */
  predicate Reads<V(==)>(tokens: seq<Token>, from: nat, n: nat, args: seq<Arg<V>>, pieces: seq<Piece<V>>)
    decreases |tokens|
  {
    if tokens == [] then n == 0 && pieces == []
    else
      && pieces != []
      && var front, said := tokens[..|tokens| - 1], pieces[..|pieces| - 1];
         match tokens[|tokens| - 1]
         case Text(s) => pieces[|pieces| - 1] == Said(s) && Reads(front, from, n, args, said)
         case Hole(k) =>
           && n > 0 && k == from + n - 1 && 1 <= k <= |args| && pieces[|pieces| - 1] == Given(args[k - 1])
           && Reads(front, from, n - 1, args, said)
  }

  lemma {:induction false} ReadsConcat<V>(a: seq<Token>, b: seq<Token>, from: nat, n: nat, m: nat, args: seq<Arg<V>>, x: seq<Piece<V>>, y: seq<Piece<V>>)
    requires Reads(a, from, n, args, x) && Reads(b, from + n, m, args, y)
    ensures Reads(a + b, from, n + m, args, x + y)
    decreases |b|
  {
    if b == [] {
      assert a + b == a && x + y == x;
    } else {
      var front, said := b[..|b| - 1], y[..|y| - 1];
      assert (a + b)[..|a + b| - 1] == a + front && (x + y)[..|x + y| - 1] == x + said;
      assert (x + y)[|x + y| - 1] == y[|y| - 1] && (a + b)[|a + b| - 1] == b[|b| - 1];
      ReadsConcat(a, front, from, n, if b[|b| - 1].Hole? then m - 1 else m, args, x, said);
    }
  }

  lemma ReadsText<V>(s: string, from: nat, args: seq<Arg<V>>)
    ensures Reads([Text(s)], from, 0, args, [Said(s)])
  {
  }

  lemma ReadsHole<V>(k: nat, args: seq<Arg<V>>)
    requires 1 <= k <= |args|
    ensures Reads([Hole(k)], k, 1, args, [Given(args[k - 1])])
  {
  }

  lemma ReadsTextHole<V>(s: string, k: nat, args: seq<Arg<V>>)
    requires 1 <= k <= |args|
    ensures Reads([Text(s), Hole(k)], k, 1, args, [Said(s), Given(args[k - 1])])
  {
    ReadsText(s, k, args);
    ReadsHole(k, args);
    ReadsConcat([Text(s)], [Hole(k)], k, 0, 1, args, [Said(s)], [Given(args[k - 1])]);
    assert [Text(s)] + [Hole(k)] == [Text(s), Hole(k)];
    assert [Said(s)] + [Given(args[k - 1])] == [Said(s), Given(args[k - 1])];
  }

  /** More arguments at the end change nothing. */
  lemma {:induction false} ReadsMore<V>(tokens: seq<Token>, from: nat, n: nat, args: seq<Arg<V>>, more: seq<Arg<V>>, pieces: seq<Piece<V>>)
    requires Reads(tokens, from, n, args, pieces)
    ensures Reads(tokens, from, n, args + more, pieces)
    decreases |tokens|
  {
    if tokens != [] {
      ReadsMore(tokens[..|tokens| - 1], from, if tokens[|tokens| - 1].Hole? then n - 1 else n, args, more, pieces[..|pieces| - 1]);
    }
  }

  lemma RangeStep(from: nat, n: nat)
    ensures Range(from, n + 1) == Range(from, n) + [from + n]
  {
  }

  /** What reading means for the placeholders and for the text filled in. */
  lemma {:induction false} ReadsMeans<V>(tokens: seq<Token>, from: nat, n: nat, args: seq<Arg<V>>, pieces: seq<Piece<V>>)
    requires Reads(tokens, from, n, args, pieces)
    ensures Holes(tokens) == Range(from, n) && InRange(tokens, args) && Filled(tokens, args) == pieces
    decreases |tokens|
  {
    if tokens != [] {
      var front, last := tokens[..|tokens| - 1], tokens[|tokens| - 1];
      ReadsMeans(front, from, if last.Hole? then n - 1 else n, args, pieces[..|pieces| - 1]);
      if last.Hole? {
        RangeStep(from, n - 1);
      }
      assert tokens == front + [last];
      assert pieces == pieces[..|pieces| - 1] + [pieces[|pieces| - 1]];
    }
  }

  /** The numbered list of an IN condition is the list of its values. */
  lemma {:induction false} ListReads<V>(from: nat, values: seq<V>, n: nat, args: seq<Arg<V>>)
    requires from >= 1 && n <= |values| && from - 1 + n <= |args|
    requires forall i :: 0 <= i < n ==> args[from - 1 + i] == Value(values[i])
    ensures Reads(HoleList(from, n), from, n, args, Listed(values, n))
  {
    if n == 1 {
      ReadsHole(from, args);
    } else if n > 1 {
      ListReads(from, values, n - 1, args);
      ReadsTextHole(", ", from + n - 1, args);
      ReadsConcat(HoleList(from, n - 1), [Text(", "), Hole(from + n - 1)], from, n - 1, 1, args,
                  Listed(values, n - 1), [Said(", "), Given(args[from + n - 2])]);
    }
  }

  lemma Around<V>(open: string, list: seq<Token>, close: string, from: nat, n: nat, args: seq<Arg<V>>, x: seq<Piece<V>>)
    requires Reads(list, from, n, args, x)
    ensures Reads([Text(open)] + list + [Text(close)], from, n, args, [Said(open)] + x + [Said(close)])
  {
    ReadsText(open, from, args);
    ReadsText(close, from + n, args);
    ReadsConcat([Text(open)], list, from, 0, n, args, [Said(open)], x);
    ReadsConcat([Text(open)] + list, [Text(close)], from, n, 0, args, [Said(open)] + x, [Said(close)]);
  }

  /** The arguments from one place on begin with these. */
  ghost predicate From<V>(args: seq<Arg<V>>, start: nat, mine: seq<Arg<V>>) {
    start + |mine| <= |args| && forall i :: 0 <= i < |mine| ==> args[start + i] == mine[i]
  }

  lemma ListConditionReads<V>(p: string, f: Filter<V>, k: nat, args: seq<Arg<V>>)
    requires IsList(f.op) && k >= 1 && k - 1 + |f.values| <= |args|
    requires forall i :: 0 <= i < |f.values| ==> args[k - 1 + i] == Value(f.values[i])
    ensures Reads(Condition(p, f, k), k, |f.values|, args, Meant(p, f))
  {
    ListReads(k, f.values, |f.values|, args);
    Around(p + ListOpen(f.op), HoleList(k, |f.values|), ")", k, |f.values|, args, Listed(f.values, |f.values|));
  }

  lemma PlainConditionReads<V>(p: string, f: Filter<V>, k: nat, args: seq<Arg<V>>)
    requires Enough(f) && !IsList(f.op) && f.op != Unknown && k >= 1 && From(args, k - 1, ArgsOf(f))
    ensures Reads(Condition(p, f, k), k, |ArgsOf(f)|, args, Meant(p, f))
  {
    assert args[k - 1 + 0] == ArgsOf(f)[0];
    if f.op == Between {
      assert args[k - 1 + 1] == ArgsOf(f)[1];
      BetweenReads(p + " BETWEEN ", k, args);
    } else {
      ReadsTextHole(p + Sign(f.op), k, args);
    }
  }

  /** A condition reads its own filter's values, through placeholders numbered from k on. */
  lemma ConditionReads<V>(p: string, f: Filter<V>, k: nat, args: seq<Arg<V>>)
    requires Enough(f) && f.op != Unknown && k >= 1 && From(args, k - 1, ArgsOf(f))
    ensures Reads(Condition(p, f, k), k, |ArgsOf(f)|, args, Meant(p, f))
  {
    if IsList(f.op) {
      var mine := ArgsOf(f);
      forall i | 0 <= i < |f.values|
        ensures args[k - 1 + i] == Value(f.values[i])
      {
        assert args[k - 1 + i] == mine[i];
      }
      ListConditionReads(p, f, k, args);
    } else {
      PlainConditionReads(p, f, k, args);
    }
  }

  lemma BetweenReads<V>(s: string, k: nat, args: seq<Arg<V>>)
    requires 1 <= k < |args|
    ensures Reads([Text(s), Hole(k), Text(" AND "), Hole(k + 1)], k, 2, args,
                  [Said(s), Given(args[k - 1]), Said(" AND "), Given(args[k])])
  {
    var a, b, x, y := [Text(s), Hole(k)], [Text(" AND "), Hole(k + 1)], [Said(s), Given(args[k - 1])], [Said(" AND "), Given(args[k])];
    ReadsTextHole(s, k, args);
    ReadsTextHole(" AND ", k + 1, args);
    ReadsConcat(a, b, k, 1, 1, args, x, y);
    assert a + b == [Text(s), Hole(k), Text(" AND "), Hole(k + 1)];
    assert x + y == [Said(s), Given(args[k - 1]), Said(" AND "), Given(args[k])];
  }

  lemma MeantSomething<V>(p: string, f: Filter<V>)
    requires Enough(f) && f.op != Unknown
    ensures Meant(p, f) != []
  {
  }

  /** Joining one more condition. */
  lemma JoinedMore<V>(parts: seq<seq<Token>>, c: seq<Token>, n: nat, m: nat, args: seq<Arg<V>>, x: seq<Piece<V>>, y: seq<Piece<V>>)
    requires Reads(Join(parts, " AND "), 1, n, args, x) && Reads(c, 1 + n, m, args, y)
    requires parts == [] <==> x == []
    ensures Reads(Join(parts + [c], " AND "), 1, n + m, args, if x == [] then y else x + [Said(" AND ")] + y)
  {
    var text := Join(parts, " AND ");
    assert (parts + [c])[..|parts|] == parts;
    if parts != [] {
      ReadsText(" AND ", 1 + n, args);
      ReadsConcat(text, [Text(" AND ")], 1, n, 0, args, x, [Said(" AND ")]);
      ReadsConcat(text + [Text(" AND ")], c, 1, n, m, args, x + [Said(" AND ")], y);
    }
  }

  lemma JoinedWith<V>(parts: seq<seq<Token>>, c: seq<Token>, before: seq<Arg<V>>, mine: seq<Arg<V>>, x: seq<Piece<V>>, y: seq<Piece<V>>)
    requires Reads(Join(parts, " AND "), 1, |before|, before, x) && Reads(c, 1 + |before|, |mine|, before + mine, y)
    requires parts == [] <==> x == []
    ensures Reads(Join(parts + [c], " AND "), 1, |before + mine|, before + mine, if x == [] then y else x + [Said(" AND ")] + y)
  {
    ReadsMore(Join(parts, " AND "), 1, |before|, before, mine, x);
    JoinedMore(parts, c, |before|, |mine|, before + mine, x, y);
  }

  lemma Appended<V>(before: seq<Arg<V>>, mine: seq<Arg<V>>)
    ensures From(before + mine, |before|, mine)
  {
  }

  lemma NextConditionReads<V>(p: string, f: Filter<V>, before: seq<Arg<V>>)
    requires Enough(f) && f.op != Unknown
    ensures Reads(Condition(p, f, |before| + 1), 1 + |before|, |ArgsOf(f)|, before + ArgsOf(f), Meant(p, f))
  {
    Appended(before, ArgsOf(f));
    ConditionReads(p, f, |before| + 1, before + ArgsOf(f));
  }

  lemma StepReads<V>(parts: seq<seq<Token>>, p: string, f: Filter<V>, before: seq<Arg<V>>, x: seq<Piece<V>>)
    requires Enough(f) && Reads(Join(parts, " AND "), 1, |before|, before, x)
    requires parts == [] <==> x == []
    ensures var after, args := AddCondition(parts, p, f, |before| + 1), before + ArgsOf(f);
            Reads(Join(after, " AND "), 1, |args|, args, And(x, p, f)) && (after == [] <==> And(x, p, f) == [])
  {
    if f.op == Unknown {
      assert before + ArgsOf(f) == before;
    } else {
      MeantSomething(p, f);
      NextConditionReads(p, f, before);
      JoinedWith(parts, Condition(p, f, |before| + 1), before, ArgsOf(f), x, Meant(p, f));
    }
  }

  /** The joined conditions read the filters in order, through placeholders numbered from 1 on. */
  lemma {:induction false} ConditionsRead<V>(filters: map<string, Filter<V>>, order: seq<string>)
    requires AllEnough(filters, order)
    ensures var args := ArgsOfAll(filters, order);
            Reads(Join(Conditions(filters, order), " AND "), 1, |args|, args, MeantAll(filters, order))
    ensures Conditions(filters, order) == [] <==> MeantAll(filters, order) == []
  {
    if order != [] {
      var front, p := order[..|order| - 1], order[|order| - 1];
      ConditionsRead(filters, front);
      StepReads(Conditions(filters, front), p, filters[p], ArgsOfAll(filters, front), MeantAll(filters, front));
    }
  }

  // ------------------------------------------------------------- the writer

  const DEFAULT_SORT_COLUMN := "id"

  function OrderBy(sortColumn: string, descending: bool): string {
    " ORDER BY " + (if sortColumn == "" then DEFAULT_SORT_COLUMN else sortColumn) + " " + OrderDirection(descending)
  }

  /** How a query ends: order, limit and offset. */
  function MeantTail<V>(order: string, limit: nat, offset: nat): seq<Piece<V>> {
    [Said(order), Said(" LIMIT "), Given(Bound(limit)), Said(" OFFSET "), Given(Bound(offset)), Said(";")]
  }

  function MeantQuery<V>(table: string, filters: map<string, Filter<V>>, order: seq<string>, clause: string, limit: nat, offset: nat): seq<Piece<V>>
    requires AllEnough(filters, order)
  {
    if order == [] then [Said("SELECT * FROM " + table)] + MeantTail(clause, limit, offset)
    else [Said("SELECT * FROM " + table + " WHERE ")] + MeantAll(filters, order) + MeantTail(clause, limit, offset)
  }

  function MeantCount<V>(table: string, filters: map<string, Filter<V>>, order: seq<string>): seq<Piece<V>>
    requires AllEnough(filters, order)
  {
    if order == [] then [Said("SELECT COUNT(*) FROM " + table + ";")]
    else [Said("SELECT COUNT(*) FROM " + table + " WHERE ")] + MeantAll(filters, order) + [Said(";")]
  }

  /** The tail as written, its two placeholders numbered k and k + 1. */
  function Tail(order: string, k: nat): seq<Token> {
    [Text(order), Text(" LIMIT "), Hole(k), Text(" OFFSET "), Hole(k + 1), Text(";")]
  }

  lemma FourParts<V>(a: string, b: string, c: string, d: string, k: nat, args: seq<Arg<V>>)
    requires 1 <= k < |args|
    ensures Reads([Text(a), Text(b), Hole(k), Text(c), Hole(k + 1), Text(d)], k, 2, args,
                  [Said(a), Said(b), Given(args[k - 1]), Said(c), Given(args[k]), Said(d)])
  {
    var t1, t2, t3, t4 := [Text(a)], [Text(b), Hole(k)], [Text(c), Hole(k + 1)], [Text(d)];
    var x1, x2, x3, x4 := [Said(a)], [Said(b), Given(args[k - 1])], [Said(c), Given(args[k])], [Said(d)];
    ReadsText(a, k, args);
    ReadsTextHole(b, k, args);
    ReadsTextHole(c, k + 1, args);
    ReadsText(d, k + 2, args);
    ReadsConcat(t1, t2, k, 0, 1, args, x1, x2);
    ReadsConcat(t1 + t2, t3, k, 1, 1, args, x1 + x2, x3);
    ReadsConcat(t1 + t2 + t3, t4, k, 2, 0, args, x1 + x2 + x3, x4);
    assert t1 + t2 + t3 + t4 == [Text(a), Text(b), Hole(k), Text(c), Hole(k + 1), Text(d)];
    assert x1 + x2 + x3 + x4 == [Said(a), Said(b), Given(args[k - 1]), Said(c), Given(args[k]), Said(d)];
  }

  lemma TailReads<V>(order: string, args: seq<Arg<V>>, limit: nat, offset: nat)
    ensures var all := args + [Bound(limit), Bound(offset)];
            Reads(Tail(order, |args| + 1), 1 + |args|, 2, all, MeantTail(order, limit, offset))
  {
    FourParts(order, " LIMIT ", " OFFSET ", ";", |args| + 1, args + [Bound(limit), Bound(offset)]);
  }

  lemma Headed<V>(head: string, tail: seq<Token>, n: nat, args: seq<Arg<V>>, x: seq<Piece<V>>)
    requires Reads(tail, 1, n, args, x)
    ensures Reads([Text(head)] + tail, 1, n, args, [Said(head)] + x)
  {
    ReadsText(head, 1, args);
    ReadsConcat([Text(head)], tail, 1, 0, n, args, [Said(head)], x);
  }

  lemma Framed<V>(head: string, text: seq<Token>, tail: seq<Token>, n: nat, m: nat, args: seq<Arg<V>>, x: seq<Piece<V>>, y: seq<Piece<V>>)
    requires Reads(text, 1, n, args, x) && Reads(tail, 1 + n, m, args, y)
    ensures Reads([Text(head)] + text + tail, 1, n + m, args, [Said(head)] + x + y)
  {
    ReadsText(head, 1, args);
    ReadsConcat([Text(head)], text, 1, 0, n, args, [Said(head)], x);
    ReadsConcat([Text(head)] + text, tail, 1, n, m, args, [Said(head)] + x, y);
  }

  /** What is promised of a written query, given the order in which the filters were visited. */
  ghost predicate Faithful<V>(w: Written<V>, table: string, filters: map<string, Filter<V>>, order: seq<string>, clause: string, limit: nat, offset: nat) {
    && AllEnough(filters, order)
    && w.args == ArgsOfAll(filters, order) + [Bound(limit), Bound(offset)]
    && Reads(w.query, 1, |w.args|, w.args, MeantQuery(table, filters, order, clause, limit, offset))
    && Reads(w.countQuery, 1, |w.args| - 2, w.args, MeantCount(table, filters, order))
  }

  /** Both queries for the joined conditions of some filters. */
  function Joined<V>(table: string, text: seq<Token>, args: seq<Arg<V>>, clause: string, limit: nat, offset: nat): Written<V> {
    Written([Text("SELECT * FROM " + table + " WHERE ")] + text + Tail(clause, |args| + 1),
            [Text("SELECT COUNT(*) FROM " + table + " WHERE ")] + text + [Text(";")],
            args + [Bound(limit), Bound(offset)])
  }

  ghost predicate Visits<V>(order: seq<string>, filters: map<string, Filter<V>>) {
    && (forall p :: p in order <==> p in filters)
    && (forall i, j :: 0 <= i < j < |order| ==> order[i] != order[j])
  }

  lemma WithoutFilters<V>(table: string, filters: map<string, Filter<V>>, clause: string, limit: nat, offset: nat)
    ensures Faithful(Written([Text("SELECT * FROM " + table)] + Tail(clause, 1), [Text("SELECT COUNT(*) FROM " + table + ";")], [Bound(limit), Bound(offset)]),
                     table, filters, [], clause, limit, offset)
  {
    var args: seq<Arg<V>> := [Bound(limit), Bound(offset)];
    var none: seq<Arg<V>> := [];
    assert none + args == args;
    TailReads(clause, none, limit, offset);
    Headed("SELECT * FROM " + table, Tail(clause, 1), 2, args, MeantTail(clause, limit, offset));
    ReadsText("SELECT COUNT(*) FROM " + table + ";", 1, args);
  }

  lemma SelectReads<V>(head: string, text: seq<Token>, clause: string, args: seq<Arg<V>>, meant: seq<Piece<V>>, limit: nat, offset: nat)
    requires Reads(text, 1, |args|, args, meant)
    ensures Reads([Text(head)] + text + Tail(clause, |args| + 1), 1, |args| + 2, args + [Bound(limit), Bound(offset)],
                  [Said(head)] + meant + MeantTail(clause, limit, offset))
  {
    ReadsMore(text, 1, |args|, args, [Bound(limit), Bound(offset)], meant);
    TailReads(clause, args, limit, offset);
    Framed(head, text, Tail(clause, |args| + 1), |args|, 2, args + [Bound(limit), Bound(offset)], meant, MeantTail(clause, limit, offset));
  }

  lemma CountReads<V>(head: string, text: seq<Token>, args: seq<Arg<V>>, more: seq<Arg<V>>, meant: seq<Piece<V>>)
    requires Reads(text, 1, |args|, args, meant)
    ensures Reads([Text(head)] + text + [Text(";")], 1, |args|, args + more, [Said(head)] + meant + [Said(";")])
  {
    ReadsMore(text, 1, |args|, args, more, meant);
    ReadsText(";", 1 + |args|, args + more);
    Framed(head, text, [Text(";")], |args|, 0, args + more, meant, [Said(";")]);
  }

  lemma WithFilters<V>(table: string, filters: map<string, Filter<V>>, order: seq<string>, clause: string, limit: nat, offset: nat)
    requires AllEnough(filters, order) && order != []
    ensures Faithful(Joined(table, Join(Conditions(filters, order), " AND "), ArgsOfAll(filters, order), clause, limit, offset),
                     table, filters, order, clause, limit, offset)
  {
    var text, args, meant := Join(Conditions(filters, order), " AND "), ArgsOfAll(filters, order), MeantAll(filters, order);
    ConditionsRead(filters, order);
    SelectReads("SELECT * FROM " + table + " WHERE ", text, clause, args, meant, limit, offset);
    CountReads("SELECT COUNT(*) FROM " + table + " WHERE ", text, args, [Bound(limit), Bound(offset)], meant);
  }

  /** The placeholders of a list, joined with commas, and the arguments they add. */
  method WriteList<V>(values: seq<V>, paramIndex: nat) returns (placeholders: seq<Token>, args: seq<Arg<V>>)
    ensures placeholders == HoleList(paramIndex, |values|)
    ensures |args| == |values| && forall i :: 0 <= i < |args| ==> args[i] == Value(values[i])
  {
    placeholders, args := [], [];
    for i := 0 to |values|
      invariant placeholders == HoleList(paramIndex, i)
      invariant |args| == i && forall j :: 0 <= j < i ==> args[j] == Value(values[j])
    {
      placeholders := placeholders + (if i == 0 then [] else [Text(", ")]) + [Hole(paramIndex + i)];
      args := args + [Value(values[i])];
    }
  }

  /** One filter: its condition, if the operator is known, and its arguments. Reading a value that is not
      there fails. */
  method WriteCondition<V>(p: string, f: Filter<V>, paramIndex: nat) returns (ok: bool, condition: seq<seq<Token>>, args: seq<Arg<V>>)
    ensures ok <==> Enough(f)
    ensures ok ==> condition == AddCondition([], p, f, paramIndex) && args == ArgsOf(f)
  {
    ok, condition, args := true, [], [];
    if f.op == Unknown {
      return;
    }
    if IsList(f.op) {
      var placeholders;
      placeholders, args := WriteList(f.values, paramIndex);
      condition := [[Text(p + ListOpen(f.op))] + placeholders + [Text(")")]];
    } else if f.op == Between {
      if |f.values| < 2 {
        return false, [], [];
      }
      condition := [[Text(p + " BETWEEN "), Hole(paramIndex), Text(" AND "), Hole(paramIndex + 1)]];
      args := [Value(f.values[0]), Value(f.values[1])];
    } else {
      if |f.values| < 1 {
        return false, [], [];
      }
      condition := [[Text(p + Sign(f.op)), Hole(paramIndex)]];
      args := [Value(f.values[0])];
    }
  }

  /** The conditions and arguments of all filters, visited in whatever order the map yields them. */
  method WriteConditions<V>(filters: map<string, Filter<V>>)
    returns (ok: bool, order: seq<string>, conditions: seq<seq<Token>>, args: seq<Arg<V>>)
    ensures ok <==> forall p :: p in filters ==> Enough(filters[p])
    ensures ok ==> Visits(order, filters) && AllEnough(filters, order)
                   && conditions == Conditions(filters, order) && args == ArgsOfAll(filters, order)
  {
    ok, order, conditions, args := true, [], [], [];
    var paramIndex := 1;
    var rest := filters.Keys;
    while rest != {}
      invariant rest <= filters.Keys && AllEnough(filters, order)
      invariant forall p :: p in order <==> p in filters && p !in rest
      invariant forall i, j :: 0 <= i < j < |order| ==> order[i] != order[j]
      invariant conditions == Conditions(filters, order) && args == ArgsOfAll(filters, order) && paramIndex == |args| + 1
      decreases rest
    {
      var p := PickAny(rest);
      rest := rest - {p};
      var condition, more;
      ok, condition, more := WriteCondition(p, filters[p], paramIndex);
      if !ok {
        return;
      }
      VisitMore(filters, order, p);
      conditions, args, paramIndex := conditions + condition, args + more, paramIndex + |more|;
      order := order + [p];
    }
  }

  method WriteUnfiltered<V>(table: string, filters: map<string, Filter<V>>, clause: string, limit: nat, offset: nat) returns (w: Written<V>)
    ensures Faithful(w, table, filters, [], clause, limit, offset)
  {
    WithoutFilters(table, filters, clause, limit, offset);
    w := Written([Text("SELECT * FROM " + table)] + Tail(clause, 1),
                 [Text("SELECT COUNT(*) FROM " + table + ";")],
                 [Bound(limit), Bound(offset)]);
  }

  method WriteFiltered<V>(table: string, filters: map<string, Filter<V>>, clause: string, limit: nat, offset: nat)
    returns (w: Option<Written<V>>, order: seq<string>)
    requires filters != map[]
    ensures w.None? <==> exists p :: p in filters && !Enough(filters[p])
    ensures w.Some? ==> Visits(order, filters) && Faithful(w.value, table, filters, order, clause, limit, offset)
  {
    var ok, conditions, args;
    ok, order, conditions, args := WriteConditions(filters);
    if !ok {
      return None, order;
    }
    SomethingVisited(order, filters);
    WithFilters(table, filters, order, clause, limit, offset);
    w := Some(Joined(table, Join(conditions, " AND "), args, clause, limit, offset));
  }

  lemma SomethingVisited<V>(order: seq<string>, filters: map<string, Filter<V>>)
    requires Visits(order, filters) && filters != map[]
    ensures order != []
  {
    var p :| p in filters;
    assert p in order;
  }

  /** Writes the page query, the count query and the arguments; fails exactly if some filter has too few values. */
  method WriteQuery<V>(table: string, filters: map<string, Filter<V>>, sortColumn: string, descending: bool, limit: nat, offset: nat)
    returns (w: Option<Written<V>>, order: seq<string>)
    ensures w.None? <==> exists p :: p in filters && !Enough(filters[p])
    ensures w.Some? ==> Visits(order, filters)
                        && Faithful(w.value, table, filters, order, OrderBy(sortColumn, descending), limit, offset)
  {
    var clause := OrderBy(sortColumn, descending);
    if filters == map[] {
      var plain := WriteUnfiltered(table, filters, clause, limit, offset);
      return Some(plain), [];
    }
    w, order := WriteFiltered(table, filters, clause, limit, offset);
  }

  lemma ArgsMore<V>(filters: map<string, Filter<V>>, order: seq<string>, p: string)
    requires AllEnough(filters, order) && p in filters && Enough(filters[p])
    ensures AllEnough(filters, order + [p])
    ensures ArgsOfAll(filters, order + [p]) == ArgsOfAll(filters, order) + ArgsOf(filters[p])
  {
    assert (order + [p])[..|order|] == order;
  }

  /** The conditions of a list of parameters, from those before the last. */
  lemma {:induction false} ConditionsOfLast<V>(filters: map<string, Filter<V>>, front: seq<string>, p: string, order: seq<string>)
    requires AllEnough(filters, front) && AllEnough(filters, order) && p in filters && Enough(filters[p])
    requires order != [] && order[..|order| - 1] == front && order[|order| - 1] == p
    ensures Conditions(filters, order) == AddCondition(Conditions(filters, front), p, filters[p], |ArgsOfAll(filters, front)| + 1)
  {
  }

  lemma {:induction false} ConditionsMore<V>(filters: map<string, Filter<V>>, order: seq<string>, p: string)
    requires AllEnough(filters, order) && AllEnough(filters, order + [p]) && p in filters && Enough(filters[p])
    ensures Conditions(filters, order + [p])
            == AddCondition(Conditions(filters, order), p, filters[p], |ArgsOfAll(filters, order)| + 1)
  {
    ConditionsOfLast(filters, order, p, order + [p]);
  }

  lemma ConditionAdded<V>(parts: seq<seq<Token>>, p: string, f: Filter<V>, k: nat)
    requires Enough(f)
    ensures AddCondition(parts, p, f, k) == parts + AddCondition([], p, f, k)
  {
  }

  lemma VisitMore<V>(filters: map<string, Filter<V>>, order: seq<string>, p: string)
    requires AllEnough(filters, order) && p in filters && Enough(filters[p])
    ensures AllEnough(filters, order + [p])
    ensures ArgsOfAll(filters, order + [p]) == ArgsOfAll(filters, order) + ArgsOf(filters[p])
    ensures Conditions(filters, order + [p])
            == Conditions(filters, order) + AddCondition([], p, filters[p], |ArgsOfAll(filters, order)| + 1)
  {
    ArgsMore(filters, order, p);
    ConditionsMore(filters, order, p);
    ConditionAdded(Conditions(filters, order), p, filters[p], |ArgsOfAll(filters, order)| + 1);
  }

  /** So the placeholders are $1 to $n, n the number of arguments, of which the last two are limit and offset;
      the count query uses exactly $1 to $(n - 2); and filled in, both say what was meant. */
  lemma FaithfulMeans<V>(w: Written<V>, table: string, filters: map<string, Filter<V>>, order: seq<string>, clause: string, limit: nat, offset: nat)
    requires Faithful(w, table, filters, order, clause, limit, offset)
    ensures var n := |w.args|;
            && n >= 2 && w.args[n - 2] == Bound(limit) && w.args[n - 1] == Bound(offset)
            && Holes(w.query) == Range(1, n) && Holes(w.countQuery) == Range(1, n - 2)
            && InRange(w.query, w.args) && InRange(w.countQuery, w.args[..n - 2])
            && Filled(w.query, w.args) == MeantQuery(table, filters, order, clause, limit, offset)
            && Filled(w.countQuery, w.args) == MeantCount(table, filters, order)
  {
    var n := |w.args|;
    ReadsMeans(w.query, 1, n, w.args, MeantQuery(table, filters, order, clause, limit, offset));
    ReadsMeans(w.countQuery, 1, n - 2, w.args, MeantCount(table, filters, order));
    HolesCover(w.countQuery, 1, n - 2);
  }

  lemma {:induction false} HolesCover(tokens: seq<Token>, from: nat, n: nat)
    requires Holes(tokens) == Range(from, n)
    ensures forall i :: 0 <= i < |tokens| && tokens[i].Hole? ==> from <= tokens[i].n < from + n
  {
    forall i | 0 <= i < |tokens| && tokens[i].Hole?
      ensures from <= tokens[i].n < from + n
    {
      HoleListed(tokens, i);
    }
  }

  lemma {:induction false} HoleListed(tokens: seq<Token>, i: nat)
    requires i < |tokens| && tokens[i].Hole?
    ensures tokens[i].n in Holes(tokens)
  {
    if i < |tokens| - 1 {
      HoleListed(tokens[..|tokens| - 1], i);
    }
  }

  // ----------------------------------------------- where the text is no query

  /** All filters have an operator the writer does not know. */
  predicate AllUnknown<V>(filters: map<string, Filter<V>>, order: seq<string>)
    requires AllEnough(filters, order)
  {
    forall i :: 0 <= i < |order| ==> filters[order[i]].op == Unknown
  }

  /** There are no conditions exactly if all operators are unknown. */
  lemma {:induction false} NothingMeant<V>(filters: map<string, Filter<V>>, order: seq<string>)
    requires AllEnough(filters, order)
    ensures MeantAll(filters, order) == [] <==> AllUnknown(filters, order)
  {
    if order != [] {
      var front, p := order[..|order| - 1], order[|order| - 1];
      NothingMeant(filters, front);
      if filters[p].op != Unknown {
        MeantSomething(p, filters[p]);
      }
      assert AllUnknown(filters, order) <==> AllUnknown(filters, front) && filters[p].op == Unknown;
    }
  }

  /** Of filters, the text after WHERE is empty exactly if all operators are unknown; the page query then goes
      on with its order clause and the count query ends there. */
  lemma EmptyWhere<V>(table: string, filters: map<string, Filter<V>>, order: seq<string>, clause: string, limit: nat, offset: nat)
    requires AllEnough(filters, order) && order != []
    ensures (MeantQuery(table, filters, order, clause, limit, offset)
             == [Said("SELECT * FROM " + table + " WHERE ")] + MeantTail(clause, limit, offset)) <==> AllUnknown(filters, order)
    ensures (MeantCount(table, filters, order) == [Said("SELECT COUNT(*) FROM " + table + " WHERE "), Said(";")]) <==> AllUnknown(filters, order)
  {
    NothingMeant(filters, order);
    var meant := MeantAll(filters, order);
    InsertedNothing([Said("SELECT * FROM " + table + " WHERE ")], meant, MeantTail(clause, limit, offset));
    var head: seq<Piece<V>> := [Said("SELECT COUNT(*) FROM " + table + " WHERE ")];
    InsertedNothing(head, meant, [Said(";")]);
    assert head + [Said(";")] == [Said("SELECT COUNT(*) FROM " + table + " WHERE "), Said(";")];
  }

  lemma InsertedNothing<T>(a: seq<T>, b: seq<T>, c: seq<T>)
    ensures a + b + c == a + c <==> b == []
  {
    assert |a + b + c| == |a| + |b| + |c|;
    if b == [] {
      assert a + b == a;
    }
  }

  /** Such a query: one filter, with an operator nobody knows. */
  method UnknownOperator<V>(table: string, p: string, values: seq<V>, limit: nat, offset: nat) returns (w: Option<Written<V>>)
    ensures w.Some? && w.value.args == [Bound(limit), Bound(offset)]
    ensures InRange<V>(w.value.countQuery, []) && Filled<V>(w.value.countQuery, []) == [Said("SELECT COUNT(*) FROM " + table + " WHERE "), Said(";")]
  {
    var filters := map[p := Filter(Unknown, values)];
    var order;
    w, order := WriteQuery(table, filters, "", false, limit, offset);
    OnlyVisit(order, filters, p);
    UnknownWritten(w.value, table, filters, order, OrderBy("", false), limit, offset);
  }

  lemma UnknownWritten<V>(w: Written<V>, table: string, filters: map<string, Filter<V>>, order: seq<string>, clause: string, limit: nat, offset: nat)
    requires AllEnough(filters, order) && order != [] && AllUnknown(filters, order)
    requires Faithful(w, table, filters, order, clause, limit, offset)
    ensures w.args == [Bound(limit), Bound(offset)]
    ensures InRange<V>(w.countQuery, []) && Filled<V>(w.countQuery, []) == [Said("SELECT COUNT(*) FROM " + table + " WHERE "), Said(";")]
  {
    UnknownArgs(w, table, filters, order, clause, limit, offset);
    UnknownCount(w, table, filters, order, clause, limit, offset);
  }

  lemma UnknownArgs<V>(w: Written<V>, table: string, filters: map<string, Filter<V>>, order: seq<string>, clause: string, limit: nat, offset: nat)
    requires AllEnough(filters, order) && AllUnknown(filters, order) && Faithful(w, table, filters, order, clause, limit, offset)
    ensures w.args == [Bound(limit), Bound(offset)]
  {
    NoArgs(filters, order);
    var none: seq<Arg<V>> := [];
    assert none + [Bound(limit), Bound(offset)] == [Bound(limit), Bound(offset)];
  }

  lemma UnknownCount<V>(w: Written<V>, table: string, filters: map<string, Filter<V>>, order: seq<string>, clause: string, limit: nat, offset: nat)
    requires AllEnough(filters, order) && order != [] && AllUnknown(filters, order)
    requires Faithful(w, table, filters, order, clause, limit, offset) && |w.args| == 2
    ensures InRange<V>(w.countQuery, []) && Filled<V>(w.countQuery, []) == [Said("SELECT COUNT(*) FROM " + table + " WHERE "), Said(";")]
  {
    EmptyWhere(table, filters, order, clause, limit, offset);
    ReadsMeans(w.countQuery, 1, |w.args| - 2, w.args, MeantCount(table, filters, order));
    HolesCover(w.countQuery, 1, |w.args| - 2);
    WithoutHoles(w.countQuery, w.args);
  }

  lemma WithoutHoles<V>(tokens: seq<Token>, args: seq<Arg<V>>)
    requires InRange(tokens, args) && forall i :: 0 <= i < |tokens| ==> !tokens[i].Hole?
    ensures InRange<V>(tokens, []) && Filled<V>(tokens, []) == Filled(tokens, args)
  {
  }

  lemma OnlyVisit<V>(order: seq<string>, filters: map<string, Filter<V>>, p: string)
    requires Visits(order, filters) && p in filters && filters.Keys == {p}
    ensures order != [] && forall i :: 0 <= i < |order| ==> order[i] == p
  {
    assert p in order;
    forall i | 0 <= i < |order|
      ensures order[i] == p
    {
      assert order[i] in order;
    }
  }

  lemma {:induction false} NoArgs<V>(filters: map<string, Filter<V>>, order: seq<string>)
    requires AllEnough(filters, order) && AllUnknown(filters, order)
    ensures ArgsOfAll(filters, order) == []
  {
    if order != [] {
      NoArgs(filters, order[..|order| - 1]);
    }
  }

  /** A condition without any placeholder is written exactly for a list operator with no values; it is the
      parameter with an empty list. */
  lemma EmptyListWritten<V>(p: string, f: Filter<V>, k: nat)
    requires Enough(f) && f.op != Unknown
    ensures ArgsOf(f) == [] <==> IsList(f.op) && f.values == []
    ensures ArgsOf(f) == [] <==> Condition(p, f, k) == [Text(p + ListOpen(f.op)), Text(")")]
  {
    if IsList(f.op) {
      var open, close := [Text(p + ListOpen(f.op))], [Text(")")];
      if |f.values| == 0 {
        assert open + [] + close == [Text(p + ListOpen(f.op)), Text(")")];
      } else {
        ListLonger(k, |f.values|);
        assert |Condition(p, f, k)| > 2;
      }
    }
  }

  lemma {:induction false} ListLonger(from: nat, n: nat)
    requires n > 0
    ensures HoleList(from, n) != []
  {
  }
}
