/** What the written conditions select, reading them as SQL does. */
module QueryMeaning {
  import opened Basics
  import opened Text
  import opened Query

  // ------------------------------------------------------ what a filter asks for

  predicate AtMost<V(==)>(x: V, y: V, less: (V, V) -> bool) {
    x == y || less(x, y)
  }

  /** A value passes a filter; `less` is the order of the values. Filters with an unknown operator ask for nothing. */
  predicate Passes<V(==)>(x: V, f: Filter<V>, less: (V, V) -> bool)
    requires Enough(f)
  {
    match f.op
    case Equal => x == f.values[0]
    case NotEqual => x != f.values[0]
    case Greater => less(f.values[0], x)
    case GreaterEqual => AtMost(f.values[0], x, less)
    case Less => less(x, f.values[0])
    case LessEqual => AtMost(x, f.values[0], less)
    case In => x in f.values
    case NotIn => x !in f.values
    case Between => AtMost(f.values[0], x, less) && AtMost(x, f.values[1], less)
    case Unknown => true
  }

  // ------------------------------------------------------ reading conditions

  /** One condition read: whether the row meets it, and where the text goes on. */
  datatype Read = Read(holds: bool, next: nat)

  predicate IsValue<V>(pieces: seq<Piece<V>>, i: nat) {
    i < |pieces| && pieces[i].Given? && pieces[i].arg.Value?
  }

  /** A list up to its closing parenthesis: whether x is in it. */
  function ReadList<V(==)>(pieces: seq<Piece<V>>, i: nat, x: V): Option<Read>
    decreases |pieces| - i
  {
    if i >= |pieces| then None
    else
      match pieces[i]
      case Said(text) =>
        if text == ")" then Some(Read(false, i + 1)) else if text == ", " then ReadList(pieces, i + 1, x) else None
      case Given(arg) =>
        if !arg.Value? then None
        else
          match ReadList(pieces, i + 1, x)
          case None => None
          case Some(rest) => Some(Read(x == arg.value || rest.holds, rest.next))
  }

  /** An operator with operands from index i on, applied to x. */
  function ReadOperands<V(==)>(pieces: seq<Piece<V>>, i: nat, sign: string, x: V, less: (V, V) -> bool): Option<Read> {
    if sign == " IN (" then ReadList(pieces, i, x)
    else if sign == " NOT IN (" then
      match ReadList(pieces, i, x)
      case None => None
      case Some(found) => Some(Read(!found.holds, found.next))
    else if !IsValue(pieces, i) then None
    else
      var v := pieces[i].arg.value;
      if sign == " BETWEEN " then
        if !IsValue(pieces, i + 2) || pieces[i + 1] != Said(" AND ") then None
        else Some(Read(AtMost(v, x, less) && AtMost(x, pieces[i + 2].arg.value, less), i + 3))
      else if sign == " = " then Some(Read(x == v, i + 1))
      else if sign == " != " then Some(Read(x != v, i + 1))
      else if sign == " > " then Some(Read(less(v, x), i + 1))
      else if sign == " >= " then Some(Read(AtMost(v, x, less), i + 1))
      else if sign == " < " then Some(Read(less(x, v), i + 1))
      else if sign == " <= " then Some(Read(AtMost(x, v, less), i + 1))
      else None
  }

  /** A column of the row, an operator and its operands. */
  function ReadCondition<V(==)>(pieces: seq<Piece<V>>, i: nat, row: map<string, V>, less: (V, V) -> bool): Option<Read> {
    if i >= |pieces| || !pieces[i].Said? then None
    else
      var text := pieces[i].text;
      var n := PrefixBefore(text, ' ');
      if text[..n] !in row then None else ReadOperands(pieces, i + 1, text[n..], row[text[..n]], less)
  }

  lemma {:induction false} ReadListNext<V>(pieces: seq<Piece<V>>, i: nat, x: V)
    ensures ReadList(pieces, i, x).Some? ==> i < ReadList(pieces, i, x).value.next <= |pieces|
    decreases |pieces| - i
  {
    if i < |pieces| {
      ReadListNext(pieces, i + 1, x);
    }
  }

  lemma ReadNext<V>(pieces: seq<Piece<V>>, i: nat, row: map<string, V>, less: (V, V) -> bool)
    ensures var read := ReadCondition(pieces, i, row, less); read.Some? ==> i < read.value.next <= |pieces|
  {
    if i < |pieces| && pieces[i].Said? {
      var text := pieces[i].text;
      var column := text[..PrefixBefore(text, ' ')];
      if column in row {
        ReadListNext(pieces, i + 1, row[column]);
      }
    }
  }

  /** Conditions with AND between them, up to the end: whether the row meets all of them. */
  function ReadWhere<V(==)>(pieces: seq<Piece<V>>, i: nat, row: map<string, V>, less: (V, V) -> bool): Option<bool>
    decreases |pieces| - i
  {
    ReadNext(pieces, i, row, less);
    match ReadCondition(pieces, i, row, less)
    case None => None
    case Some(read) =>
      if read.next == |pieces| then Some(read.holds)
      else if pieces[read.next] != Said(" AND ") then None
      else
        match ReadWhere(pieces, read.next + 1, row, less)
        case None => None
        case Some(rest) => Some(read.holds && rest)
  }

  // ------------------------------------------------------ one condition

  lemma {:induction false} ListedAt<V>(values: seq<V>, n: nat, k: nat)
    requires k < n <= |values|
    ensures |Listed(values, n)| == 2 * n - 1 && Listed(values, n)[2 * k] == Given(Value(values[k]))
    ensures k + 1 < n ==> Listed(values, n)[2 * k + 1] == Said(", ")
  {
    if n > 1 {
      if k + 1 < n {
        ListedAt(values, n - 1, k);
      } else {
        ListedAt(values, n - 1, 0);
      }
    }
  }

  /** The j-th value of a list that begins at index b, and the comma behind it. */
  ghost predicate ValueAt<V>(pieces: seq<Piece<V>>, b: nat, values: seq<V>, j: nat) {
    && j < |values| && b + 2 * j + 1 < |pieces| && pieces[b + 2 * j] == Given(Value(values[j]))
    && pieces[b + 2 * j + 1] == Said(if j + 1 < |values| then ", " else ")")
  }

  ghost predicate ListAt<V>(pieces: seq<Piece<V>>, b: nat, values: seq<V>) {
    && (forall j: nat :: j < |values| ==> ValueAt(pieces, b, values, j))
    && (values == [] ==> b < |pieces| && pieces[b] == Said(")"))
  }

  /** Where the text goes on behind the list. */
  function Behind<V>(b: nat, values: seq<V>): nat {
    b + if values == [] then 1 else 2 * |values|
  }

  predicate InFrom<V(==)>(values: seq<V>, x: V, k: nat) {
    exists j :: k <= j < |values| && values[j] == x
  }

  lemma InFromNext<V>(values: seq<V>, x: V, k: nat)
    requires k < |values|
    ensures InFrom(values, x, k) <==> values[k] == x || InFrom(values, x, k + 1)
  {
  }

  lemma {:induction false} ListRead<V>(pieces: seq<Piece<V>>, b: nat, values: seq<V>, x: V, k: nat)
    requires ListAt(pieces, b, values) && k < |values|
    ensures ReadList(pieces, b + 2 * k, x) == Some(Read(InFrom(values, x, k), Behind(b, values)))
    decreases |values| - k
  {
    assert ValueAt(pieces, b, values, k);
    InFromNext(values, x, k);
    if k + 1 < |values| {
      assert ReadList(pieces, b + 2 * k + 1, x) == ReadList(pieces, b + 2 * (k + 1), x);
      ListRead(pieces, b, values, x, k + 1);
    } else {
      assert ReadList(pieces, b + 2 * k + 1, x) == Some(Read(false, b + 2 * k + 2));
    }
  }

  lemma WholeListRead<V>(pieces: seq<Piece<V>>, b: nat, values: seq<V>, x: V)
    requires ListAt(pieces, b, values)
    ensures ReadList(pieces, b, x) == Some(Read(x in values, Behind(b, values)))
  {
    if values != [] {
      ListRead(pieces, b, values, x, 0);
    }
  }

  /** The pieces of a condition stand in the text from index i on. */
  ghost predicate StandsAt<V>(pieces: seq<Piece<V>>, i: nat, c: seq<Piece<V>>) {
    i + |c| <= |pieces| && pieces[i..i + |c|] == c
  }

  lemma StandsPiece<V>(pieces: seq<Piece<V>>, i: nat, c: seq<Piece<V>>, j: nat)
    requires StandsAt(pieces, i, c) && j < |c|
    ensures i + j < |pieces| && pieces[i + j] == c[j]
  {
    assert pieces[i..i + |c|][j] == c[j];
  }

  lemma HeadRead<V>(p: string, sign: string, pieces: seq<Piece<V>>, i: nat, row: map<string, V>, less: (V, V) -> bool)
    requires ' ' !in p && sign != "" && sign[0] == ' ' && p in row && i < |pieces| && pieces[i] == Said(p + sign)
    ensures ReadCondition(pieces, i, row, less) == ReadOperands(pieces, i + 1, sign, row[p], less)
  {
    PrefixBeforeWord(p, sign, ' ');
    assert (p + sign)[..|p|] == p && (p + sign)[|p|..] == sign;
  }

  /** The pieces of a list condition. */
  lemma MeantListAt<V>(p: string, f: Filter<V>, j: nat)
    requires IsList(f.op) && j < |f.values|
    ensures var c := Meant(p, f);
            && |c| == 2 * |f.values| + 1 && c[2 * j + 1] == Given(Value(f.values[j]))
            && c[2 * j + 2] == Said(if j + 1 < |f.values| then ", " else ")")
  {
    ListedAt(f.values, |f.values|, j);
  }

  lemma ListValueStands<V>(p: string, f: Filter<V>, pieces: seq<Piece<V>>, i: nat, b: nat, j: nat)
    requires IsList(f.op) && StandsAt(pieces, i, Meant(p, f)) && j < |f.values| && b == i + 1
    ensures ValueAt(pieces, b, f.values, j)
  {
    MeantListAt(p, f, j);
    StandsPiece(pieces, i, Meant(p, f), 2 * j + 1);
    StandsPiece(pieces, i, Meant(p, f), 2 * j + 2);
  }

  lemma EmptyListStands<V>(p: string, f: Filter<V>, pieces: seq<Piece<V>>, i: nat)
    requires IsList(f.op) && StandsAt(pieces, i, Meant(p, f)) && f.values == []
    ensures |Meant(p, f)| == 2 && i + 1 < |pieces| && pieces[i + 1] == Said(")")
  {
    StandsPiece(pieces, i, Meant(p, f), 1);
  }

  lemma ListStands<V>(p: string, f: Filter<V>, pieces: seq<Piece<V>>, i: nat, b: nat)
    requires IsList(f.op) && StandsAt(pieces, i, Meant(p, f)) && b == i + 1
    ensures ListAt(pieces, b, f.values) && Behind(b, f.values) == i + |Meant(p, f)|
  {
    if f.values == [] {
      EmptyListStands(p, f, pieces, i);
    } else {
      MeantListAt(p, f, 0);
      forall j: nat | j < |f.values|
        ensures ValueAt(pieces, b, f.values, j)
      {
        ListValueStands(p, f, pieces, i, b, j);
      }
    }
  }

  lemma ListConditionRead<V>(p: string, f: Filter<V>, pieces: seq<Piece<V>>, i: nat, x: V, less: (V, V) -> bool)
    requires IsList(f.op) && StandsAt(pieces, i, Meant(p, f))
    ensures ReadOperands(pieces, i + 1, ListOpen(f.op), x, less) == Some(Read(Passes(x, f, less), i + |Meant(p, f)|))
  {
    ListStands(p, f, pieces, i, i + 1);
    WholeListRead(pieces, i + 1, f.values, x);
  }

  lemma BetweenRead<V>(p: string, f: Filter<V>, pieces: seq<Piece<V>>, i: nat, x: V, less: (V, V) -> bool)
    requires f.op == Between && Enough(f) && StandsAt(pieces, i, Meant(p, f))
    ensures ReadOperands(pieces, i + 1, " BETWEEN ", x, less) == Some(Read(Passes(x, f, less), i + |Meant(p, f)|))
  {
    StandsPiece(pieces, i, Meant(p, f), 1);
    StandsPiece(pieces, i, Meant(p, f), 2);
    StandsPiece(pieces, i, Meant(p, f), 3);
  }

  lemma ComparisonRead<V>(p: string, f: Filter<V>, pieces: seq<Piece<V>>, i: nat, x: V, less: (V, V) -> bool)
    requires !IsList(f.op) && f.op != Between && f.op != Unknown && Enough(f) && StandsAt(pieces, i, Meant(p, f))
    ensures ReadOperands(pieces, i + 1, Sign(f.op), x, less) == Some(Read(Passes(x, f, less), i + |Meant(p, f)|))
  {
    StandsPiece(pieces, i, Meant(p, f), 1);
  }

  function Opening<V>(f: Filter<V>): string {
    if IsList(f.op) then ListOpen(f.op) else if f.op == Between then " BETWEEN " else Sign(f.op)
  }

  lemma MeantOpens<V>(p: string, f: Filter<V>, pieces: seq<Piece<V>>, i: nat)
    requires Enough(f) && f.op != Unknown && StandsAt(pieces, i, Meant(p, f))
    ensures i < |pieces| && pieces[i] == Said(p + Opening(f)) && Opening(f) != "" && Opening(f)[0] == ' '
  {
    StandsPiece(pieces, i, Meant(p, f), 0);
  }

  /** A written condition is met exactly by the rows whose value passes the filter. */
  lemma ConditionMeans<V>(p: string, f: Filter<V>, pieces: seq<Piece<V>>, i: nat, row: map<string, V>, less: (V, V) -> bool)
    requires Enough(f) && f.op != Unknown && ' ' !in p && p in row && StandsAt(pieces, i, Meant(p, f))
    ensures ReadCondition(pieces, i, row, less) == Some(Read(Passes(row[p], f, less), i + |Meant(p, f)|))
  {
    MeantOpens(p, f, pieces, i);
    HeadRead(p, Opening(f), pieces, i, row, less);
    if IsList(f.op) {
      ListConditionRead(p, f, pieces, i, row[p], less);
    } else if f.op == Between {
      BetweenRead(p, f, pieces, i, row[p], less);
    } else {
      ComparisonRead(p, f, pieces, i, row[p], less);
    }
  }

  // ------------------------------------------------------ all conditions

  /** What is written for the first n filters. */
  function Upto<V>(filters: map<string, Filter<V>>, order: seq<string>, n: nat): seq<Piece<V>>
    requires AllEnough(filters, order) && n <= |order|
  {
    MeantAll(filters, order[..n])
  }

  lemma UptoNext<V>(filters: map<string, Filter<V>>, order: seq<string>, n: nat)
    requires AllEnough(filters, order) && n < |order|
    ensures Upto(filters, order, n + 1) == And(Upto(filters, order, n), order[n], filters[order[n]])
  {
    assert order[..n + 1][..n] == order[..n] && order[..n + 1][n] == order[n];
  }

  /** More filters only add to the text, behind an AND. */
  ghost predicate Extends<V>(a: seq<Piece<V>>, b: seq<Piece<V>>) {
    |a| <= |b| && b[..|a|] == a && (0 < |a| < |b| ==> b[|a|] == Said(" AND "))
  }

  lemma AndExtends<V>(a: seq<Piece<V>>, p: string, f: Filter<V>)
    requires Enough(f)
    ensures Extends(a, And(a, p, f))
  {
  }

  lemma ExtendsOn<V>(a: seq<Piece<V>>, b: seq<Piece<V>>, c: seq<Piece<V>>)
    requires Extends(a, b) && Extends(b, c)
    ensures Extends(a, c)
  {
    assert c[..|b|][..|a|] == c[..|a|];
    if |a| < |b| {
      assert c[..|b|][|a|] == c[|a|];
    }
  }

  lemma {:induction false} UptoExtends<V>(filters: map<string, Filter<V>>, order: seq<string>, m: nat, n: nat)
    requires AllEnough(filters, order) && m <= n <= |order|
    ensures Extends(Upto(filters, order, m), Upto(filters, order, n))
    decreases n
  {
    if m < n {
      UptoExtends(filters, order, m, n - 1);
      UptoNext(filters, order, n - 1);
      AndExtends(Upto(filters, order, n - 1), order[n - 1], filters[order[n - 1]]);
      ExtendsOn(Upto(filters, order, m), Upto(filters, order, n - 1), Upto(filters, order, n));
    }
  }

  /** Where the next condition begins. */
  function Start<V>(before: seq<Piece<V>>): nat {
    if before == [] then 0 else |before| + 1
  }

  lemma MeantStands<V>(before: seq<Piece<V>>, p: string, f: Filter<V>, all: seq<Piece<V>>)
    requires Enough(f) && f.op != Unknown && Extends(And(before, p, f), all)
    ensures StandsAt(all, Start(before), Meant(p, f)) && Start(before) + |Meant(p, f)| == |And(before, p, f)|
  {
    var more := And(before, p, f);
    assert all[..|more|] == more;
    assert more[Start(before)..] == Meant(p, f);
    assert all[Start(before)..|more|] == more[Start(before)..];
  }

  /** The row passes the filters from the n-th on. */
  predicate PassesFrom<V(==)>(filters: map<string, Filter<V>>, order: seq<string>, n: nat, row: map<string, V>, less: (V, V) -> bool)
    requires AllEnough(filters, order) && Readable(order, row)
  {
    forall j :: n <= j < |order| ==> Passes(row[order[j]], filters[order[j]], less)
  }

  /** The parameters are columns of the row, and their names hold no space. */
  predicate Readable<V>(order: seq<string>, row: map<string, V>) {
    forall j :: 0 <= j < |order| ==> order[j] in row && ' ' !in order[j]
  }

  predicate SomeKnown<V>(filters: map<string, Filter<V>>, order: seq<string>, n: nat)
    requires AllEnough(filters, order)
  {
    exists j :: n <= j < |order| && filters[order[j]].op != Unknown
  }

  lemma NextFrom<V>(filters: map<string, Filter<V>>, order: seq<string>, n: nat, row: map<string, V>, less: (V, V) -> bool)
    requires AllEnough(filters, order) && Readable(order, row) && n < |order|
    ensures PassesFrom(filters, order, n, row, less)
            <==> Passes(row[order[n]], filters[order[n]], less) && PassesFrom(filters, order, n + 1, row, less)
    ensures SomeKnown(filters, order, n) <==> filters[order[n]].op != Unknown || SomeKnown(filters, order, n + 1)
    ensures !SomeKnown(filters, order, n) ==> PassesFrom(filters, order, n, row, less)
  {
  }

  /** Whether anything is written from the n-th filter on. */
  lemma {:induction false} WrittenFrom<V>(filters: map<string, Filter<V>>, order: seq<string>, n: nat)
    requires AllEnough(filters, order) && n <= |order|
    ensures |Upto(filters, order, n)| < |Upto(filters, order, |order|)| <==> SomeKnown(filters, order, n)
    decreases |order| - n
  {
    if n < |order| {
      WrittenFrom(filters, order, n + 1);
      UptoNext(filters, order, n);
      UptoExtends(filters, order, n + 1, |order|);
      if filters[order[n]].op != Unknown {
        MeantSomething(order[n], filters[order[n]]);
      }
      assert SomeKnown(filters, order, n) <==> filters[order[n]].op != Unknown || SomeKnown(filters, order, n + 1);
    }
  }

  /** Reading on behind one condition. */
  lemma WhereNext<V>(all: seq<Piece<V>>, i: nat, row: map<string, V>, less: (V, V) -> bool, holds: bool, next: nat, rest: bool)
    requires ReadCondition(all, i, row, less) == Some(Read(holds, next))
    requires next < |all| ==> all[next] == Said(" AND ") && ReadWhere(all, next + 1, row, less) == Some(rest)
    requires next == |all| ==> rest
    ensures ReadWhere(all, i, row, less) == Some(holds && rest)
  {
    ReadNext(all, i, row, less);
  }

  lemma KnownRead<V>(filters: map<string, Filter<V>>, order: seq<string>, n: nat, row: map<string, V>, less: (V, V) -> bool)
    requires AllEnough(filters, order) && Readable(order, row) && n < |order| && filters[order[n]].op != Unknown
    ensures var all, after := Upto(filters, order, |order|), Upto(filters, order, n + 1);
            && ReadCondition(all, Start(Upto(filters, order, n)), row, less)
               == Some(Read(Passes(row[order[n]], filters[order[n]], less), |after|))
            && after != [] && Extends(after, all)
  {
    var all, before, p := Upto(filters, order, |order|), Upto(filters, order, n), order[n];
    UptoNext(filters, order, n);
    UptoExtends(filters, order, n + 1, |order|);
    MeantStands(before, p, filters[p], all);
    ConditionMeans(p, filters[p], all, Start(before), row, less);
    MeantSomething(p, filters[p]);
  }

  /** Reading from the n-th filter on tells whether the row passes those from there on. */
  ghost predicate ReadsFrom<V>(filters: map<string, Filter<V>>, order: seq<string>, n: nat, row: map<string, V>, less: (V, V) -> bool)
    requires AllEnough(filters, order) && Readable(order, row) && n <= |order|
  {
    ReadWhere(Upto(filters, order, |order|), Start(Upto(filters, order, n)), row, less) == Some(PassesFrom(filters, order, n, row, less))
  }

  lemma UnknownStep<V>(filters: map<string, Filter<V>>, order: seq<string>, n: nat, row: map<string, V>, less: (V, V) -> bool)
    requires AllEnough(filters, order) && Readable(order, row) && n < |order| && filters[order[n]].op == Unknown
    requires ReadsFrom(filters, order, n + 1, row, less)
    ensures ReadsFrom(filters, order, n, row, less)
  {
    UptoNext(filters, order, n);
    NextFrom(filters, order, n, row, less);
  }

  lemma KnownStep<V>(filters: map<string, Filter<V>>, order: seq<string>, n: nat, row: map<string, V>, less: (V, V) -> bool)
    requires AllEnough(filters, order) && Readable(order, row) && n < |order| && filters[order[n]].op != Unknown
    requires SomeKnown(filters, order, n + 1) ==> ReadsFrom(filters, order, n + 1, row, less)
    ensures ReadsFrom(filters, order, n, row, less)
  {
    var all, after := Upto(filters, order, |order|), Upto(filters, order, n + 1);
    KnownRead(filters, order, n, row, less);
    WrittenFrom(filters, order, n + 1);
    if !SomeKnown(filters, order, n + 1) {
      NothingLeft(filters, order, n + 1, row, less);
    }
    WhereNext(all, Start(Upto(filters, order, n)), row, less, Passes(row[order[n]], filters[order[n]], less), |after|,
              PassesFrom(filters, order, n + 1, row, less));
    NextFrom(filters, order, n, row, less);
  }

  lemma {:induction false} RestRead<V>(filters: map<string, Filter<V>>, order: seq<string>, n: nat, row: map<string, V>, less: (V, V) -> bool)
    requires AllEnough(filters, order) && Readable(order, row) && n <= |order| && SomeKnown(filters, order, n)
    ensures ReadsFrom(filters, order, n, row, less)
    decreases |order| - n
  {
    NextFrom(filters, order, n, row, less);
    if filters[order[n]].op == Unknown {
      RestRead(filters, order, n + 1, row, less);
      UnknownStep(filters, order, n, row, less);
    } else {
      if SomeKnown(filters, order, n + 1) {
        RestRead(filters, order, n + 1, row, less);
      }
      KnownStep(filters, order, n, row, less);
    }
  }

  lemma NothingLeft<V>(filters: map<string, Filter<V>>, order: seq<string>, n: nat, row: map<string, V>, less: (V, V) -> bool)
    requires AllEnough(filters, order) && Readable(order, row) && !SomeKnown(filters, order, n)
    ensures PassesFrom(filters, order, n, row, less)
  {
  }

  /** The conditions of a query select, read as SQL, exactly the rows that pass all filters. */
  lemma WhereSelects<V>(filters: map<string, Filter<V>>, order: seq<string>, row: map<string, V>, less: (V, V) -> bool)
    requires AllEnough(filters, order) && Readable(order, row) && !AllUnknown(filters, order)
    ensures ReadWhere(MeantAll(filters, order), 0, row, less)
            == Some(forall j :: 0 <= j < |order| ==> Passes(row[order[j]], filters[order[j]], less))
  {
    assert order[..|order|] == order && order[..0] == [];
    RestRead(filters, order, 0, row, less);
  }

  // ------------------------------------------------------ the order of the rows

  /** The order clause names the column asked for, or `id`, and says DESC exactly if descending order is asked for. */
  lemma OrderSays(sortColumn: string, descending: bool)
    ensures OrderBy(sortColumn, descending)
            == " ORDER BY " + (if sortColumn == "" then "id" else sortColumn) + if descending then " DESC" else " ASC"
  {
    var column := if sortColumn == "" then "id" else sortColumn;
    var word := if descending then "DESC" else "ASC";
    assert " ORDER BY " + column + " " + word == " ORDER BY " + column + (" " + word);
    assert " " + "DESC" == " DESC" && " " + "ASC" == " ASC";
  }
}
