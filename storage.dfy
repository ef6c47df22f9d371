/**
 * The statements PersonStorage (internal/storage/person.go) builds: the
 * INSERT of Save, the keyset-paginated, filtered SELECT of Get and the
 * partial UPDATE of Update. Each builder returns the query and the arguments
 * it would hand to the driver; executing them is not modelled.
 */
module Storage {
  import opened Wrappers
  import opened Models
  import opened Sql

  /** One (column, value) pair of a filter or update map, as `range` yields it. */
  type Entry = (string, Value)

  const SELECT_HEAD := "SELECT * FROM persons "
  const WHERE_KEYWORD := "WHERE "
  const AND_KEYWORD := " AND "
  const CURSOR_OPEN := "(id, created_at) < ("
  const COMMA := ", "
  const CURSOR_CLOSE := ")"
  const ORDER_LIMIT := " ORDER BY created_at DESC, id DESC LIMIT "
  const UPDATE_HEAD := "UPDATE persons SET "
  const WHERE_ID := " WHERE id="
  /** The INSERT's column list is the `db` tags of Person, in order. */
  const INSERT_HEAD := "INSERT INTO persons (" + ColumnList(PERSON_COLUMNS) + ") VALUES ("

  /** Column names separated by ", ". */
  function ColumnList(cs: seq<string>): string {
    if cs == [] then "" else if |cs| == 1 then cs[0] else cs[0] + COMMA + ColumnList(cs[1..])
  }

  function Columns(es: seq<Entry>): (cs: seq<string>)
    ensures |cs| == |es| && forall i | 0 <= i < |es| :: cs[i] == es[i].0
  {
    seq(|es|, i requires 0 <= i < |es| => es[i].0)
  }

  function Values(es: seq<Entry>): (vs: seq<Value>)
    ensures |vs| == |es| && forall i | 0 <= i < |es| :: vs[i] == es[i].1
  {
    seq(|es|, i requires 0 <= i < |es| => es[i].1)
  }

  /**
   * `es` is one of the orders in which `for column, value := range m` may
   * visit `m`: every key exactly once, with its value.
   */
  ghost predicate Enumerates(es: seq<Entry>, m: map<string, Value>) {
    && (forall i | 0 <= i < |es| :: es[i].0 in m && m[es[i].0] == es[i].1)
    && (forall i, j | 0 <= i < j < |es| :: es[i].0 != es[j].0)
    && (forall c | c in m :: c in Columns(es))
  }

  /** An enumeration visits as many entries as the map has keys. */
  lemma {:induction false} EnumerationSize(es: seq<Entry>, m: map<string, Value>)
    requires Enumerates(es, m)
    ensures |es| == |m|
  {
    if es == [] {
      assert Columns(es) == [];
      assert m.Keys == {};
    } else {
      var n := |es| - 1;
      var front, last := es[..n], es[n];
      var rest := m - {last.0};
      assert Columns(es) == Columns(front) + [last.0];
      forall c | c in rest ensures c in Columns(front) {
        assert c in Columns(es) && c != last.0;
      }
      assert Enumerates(front, rest);
      EnumerationSize(front, rest);
      assert rest.Keys == m.Keys - {last.0};
    }
  }

  /**
   * Part way through `range m`: `es` lists the keys visited so far, each
   * once and with its value, and `rest` holds the keys still to come.
   */
  ghost predicate PartlyEnumerated(es: seq<Entry>, rest: set<string>, m: map<string, Value>) {
    && rest <= m.Keys
    && (forall i | 0 <= i < |es| :: es[i].0 in m && es[i].0 !in rest && m[es[i].0] == es[i].1)
    && (forall i, j | 0 <= i < j < |es| :: es[i].0 != es[j].0)
    && (forall c | c in m :: c in rest || c in Columns(es))
  }

  lemma EnumerationStart(m: map<string, Value>)
    ensures PartlyEnumerated([], m.Keys, m)
  {
  }

  /** Visiting any key still to come keeps the enumeration consistent. */
  lemma EnumerationStep(es: seq<Entry>, rest: set<string>, m: map<string, Value>, column: string)
    requires PartlyEnumerated(es, rest, m) && column in rest
    ensures PartlyEnumerated(es + [(column, m[column])], rest - {column}, m)
  {
    assert Columns(es + [(column, m[column])]) == Columns(es) + [column];
  }

  lemma EnumerationDone(es: seq<Entry>, m: map<string, Value>)
    requires PartlyEnumerated(es, {}, m)
    ensures Enumerates(es, m)
  {
  }

  // ---------------------------------------------------------------- fragments

  /** `fmt.Sprintf("%s=$%d", column, k)`. */
  function Fragment(column: string, k: nat): seq<Token> {
    [Text(column + "="), Param(k)]
  }

  /** The fragments of the loop over `es` when the counter starts at `start`. */
  function Fragments(es: seq<Entry>, start: nat): seq<seq<Token>> {
    seq(|es|, i requires 0 <= i < |es| => Fragment(es[i].0, start + i))
  }

  lemma ValuesSnoc(es: seq<Entry>, e: Entry)
    ensures Values(es + [e]) == Values(es) + [e.1]
  {
  }

  lemma FragmentsSnoc(es: seq<Entry>, e: Entry, start: nat)
    ensures Fragments(es + [e], start) == Fragments(es, start) + [Fragment(e.0, start + |es|)]
  {
  }

  /** `strings.Join(fragments, sep)`. */
  function JoinedFragments(es: seq<Entry>, start: nat, sep: string): seq<Token> {
    Join(Fragments(es, start), Text(sep))
  }

  /** `strings.Join(fragments, ", ")`, as Get and Update write it. */
  function FragmentList(es: seq<Entry>, start: nat): seq<Token> {
    JoinedFragments(es, start, COMMA)
  }

  lemma JoinedFragmentsUnfold(es: seq<Entry>, start: nat, sep: string)
    requires |es| > 1
    ensures JoinedFragments(es, start, sep)
         == Fragment(es[0].0, start) + [Text(sep)] + JoinedFragments(es[1..], start + 1, sep)
  {
    assert Fragments(es, start)[1..] == Fragments(es[1..], start + 1);
  }

  /** The joined fragments number their placeholders start, start + 1, ... in order. */
  lemma {:induction false} JoinedFragmentsParams(es: seq<Entry>, start: nat, sep: string)
    ensures Params(JoinedFragments(es, start, sep)) == Iota(start, |es|)
  {
    if |es| == 1 {
      assert JoinedFragments(es, start, sep) == Fragment(es[0].0, start);
      ParamsConcat([Text(es[0].0 + "=")], [Param(start)]);
    } else if |es| > 1 {
      JoinedFragmentsUnfold(es, start, sep);
      var f := Fragment(es[0].0, start);
      ParamsConcat(f + [Text(sep)], JoinedFragments(es[1..], start + 1, sep));
      ParamsConcat(f, [Text(sep)]);
      ParamsConcat([Text(es[0].0 + "=")], [Param(start)]);
      JoinedFragmentsParams(es[1..], start + 1, sep);
    }
  }

  /**
   * Entry i sits at token 3 * i of the joined list, bound to placeholder
   * start + i, and `sep` separates it from entry i + 1.
   */
  lemma {:induction false} JoinedFragmentsAt(es: seq<Entry>, start: nat, sep: string, i: nat)
    requires i < |es|
    ensures |JoinedFragments(es, start, sep)| == 3 * |es| - 1
    ensures JoinedFragments(es, start, sep)[3 * i] == Text(es[i].0 + "=")
    ensures JoinedFragments(es, start, sep)[3 * i + 1] == Param(start + i)
    ensures i + 1 < |es| ==> JoinedFragments(es, start, sep)[3 * i + 2] == Text(sep)
  {
    if |es| == 1 {
      assert JoinedFragments(es, start, sep) == Fragment(es[0].0, start);
    } else {
      JoinedFragmentsUnfold(es, start, sep);
      if i == 0 {
        JoinedFragmentsAt(es[1..], start + 1, sep, 0);
      } else {
        JoinedFragmentsAt(es[1..], start + 1, sep, i - 1);
      }
    }
  }

  /**
   * Apart from the separators, the only text in the list is `column=` for
   * a column of `es`: no value is ever spelled into the query.
   */
  lemma {:induction false} FragmentListTexts(es: seq<Entry>, start: nat)
    ensures forall t | t in FragmentList(es, start) && t.Text? && t != Text(COMMA) ::
              EndsWithEquals(t.s) && t.s[..|t.s| - 1] in Columns(es)
  {
    if |es| == 1 {
      assert FragmentList(es, start) == Fragment(es[0].0, start);
      assert (es[0].0 + "=")[..|es[0].0|] == es[0].0;
    } else if |es| > 1 {
      JoinedFragmentsUnfold(es, start, COMMA);
      FragmentListTexts(es[1..], start + 1);
      assert (es[0].0 + "=")[..|es[0].0|] == es[0].0;
      assert Columns(es[1..]) == Columns(es)[1..];
      forall t | t in FragmentList(es, start) && t.Text? && t != Text(COMMA)
        ensures EndsWithEquals(t.s) && t.s[..|t.s| - 1] in Columns(es)
      {
        if t !in Fragment(es[0].0, start) {
          assert t in FragmentList(es[1..], start + 1);
        }
      }
    }
  }

  /** A text that does not end in '=' never occurs in a fragment list. */
  lemma NotInFragmentList(s: string, es: seq<Entry>, start: nat)
    requires !EndsWithEquals(s) && s != COMMA
    ensures Text(s) !in FragmentList(es, start)
  {
    FragmentListTexts(es, start);
  }

  /**
   * The loop `for column, value := range m` shared by Get and Update: one
   * `column=$argID` fragment and one argument per entry, with the counter
   * moving on by one each time. The map is visited in an order the method
   * does not control; `entries` records the order taken.
   */
  method CollectFragments(m: map<string, Value>, args0: seq<Value>, first: nat)
    returns (fragments: seq<seq<Token>>, args: seq<Value>, argID: nat, ghost entries: seq<Entry>)
    ensures Enumerates(entries, m)
    ensures fragments == Fragments(entries, first)
    ensures args == args0 + Values(entries)
    ensures argID == first + |entries|
    ensures |fragments| == |m| && |args| == |args0| + |m| && argID == first + |m|
  {
    fragments, args, argID := [], args0, first;
    var rest := m.Keys;
    entries := [];
    EnumerationStart(m);
    while rest != {}
      invariant PartlyEnumerated(entries, rest, m)
      invariant argID == first + |entries|
      invariant fragments == Fragments(entries, first)
      invariant args == args0 + Values(entries)
      decreases rest
    {
      var column :| column in rest;
      var value := m[column];
      fragments := fragments + [Fragment(column, argID)];
      args := args + [value];
      argID := argID + 1;
      EnumerationStep(entries, rest, m, column);
      ValuesSnoc(entries, (column, value));
      FragmentsSnoc(entries, (column, value), first);
      entries := entries + [(column, value)];
      rest := rest - {column};
    }
    EnumerationDone(entries, m);
    EnumerationSize(entries, m);
  }

  // ---------------------------------------------------------------- Get

  /** The cursor predicate is built only when both parts are non-empty. */
  predicate HasCursor(id: string, createdAt: string) {
    id != "" && createdAt != ""
  }

  /** The placeholder number of the first filter. */
  function FirstFilterParam(id: string, createdAt: string): nat {
    if HasCursor(id, createdAt) then 3 else 1
  }

  /** `fmt.Sprintf("(id, created_at) < ($%d, $%d)", k, k + 1)`. */
  function CursorPredicate(k: nat): seq<Token> {
    [Text(CURSOR_OPEN), Param(k), Text(COMMA), Param(k + 1), Text(CURSOR_CLOSE)]
  }

  function CursorArgs(id: string, createdAt: string): seq<Value> {
    if HasCursor(id, createdAt) then [StrVal(id), StrVal(createdAt)] else []
  }

  /** Everything Get writes before the filter list: head, WHERE, cursor predicate, AND. */
  function SelectPrefix(id: string, createdAt: string, hasFilters: bool): seq<Token> {
    var cursor := HasCursor(id, createdAt);
    [Text(SELECT_HEAD)]
    + (if cursor || hasFilters then [Text(WHERE_KEYWORD)] else [])
    + (if cursor then CursorPredicate(1) else [])
    + (if cursor && hasFilters then [Text(AND_KEYWORD)] else [])
  }

  /** The SELECT that Get builds when `range filters` visits the entries `es`. */
  function SelectQuery(id: string, createdAt: string, es: seq<Entry>): seq<Token> {
    var start := FirstFilterParam(id, createdAt);
    SelectPrefix(id, createdAt, |es| != 0)
    + FragmentList(es, start)
    + [Text(ORDER_LIMIT), Param(start + |es|)]
  }

  /** The arguments Get binds, in placeholder order. */
  function SelectArgs(id: string, createdAt: string, es: seq<Entry>, limit: int): seq<Value> {
    CursorArgs(id, createdAt) + Values(es) + [IntVal(limit)]
  }

  /**
   * What the strings.Builder holds once Get has written every part, stated
   * over the builder's own variables as its `if`s test them. SelectQuery
   * says the same over Get's inputs; SelectAssembled connects the two.
   */
  function WrittenSelect(pagPart: seq<Token>, getValues: seq<seq<Token>>, argID: nat): seq<Token> {
    [Text(SELECT_HEAD)]
    + (if pagPart != [] || |getValues| != 0 then [Text(WHERE_KEYWORD)] else [])
    + pagPart
    + (if pagPart != [] && |getValues| != 0 then [Text(AND_KEYWORD)] else [])
    + Join(getValues, Text(COMMA))
    + [Text(ORDER_LIMIT), Param(argID)]
  }

  /** With the cursor part and the fragments Get computes, what it writes is SelectQuery. */
  lemma SelectAssembled(id: string, createdAt: string, es: seq<Entry>, pagPart: seq<Token>,
                        getValues: seq<seq<Token>>, argID: nat)
    requires pagPart == (if HasCursor(id, createdAt) then CursorPredicate(1) else [])
    requires getValues == Fragments(es, FirstFilterParam(id, createdAt))
    requires argID == FirstFilterParam(id, createdAt) + |es|
    ensures WrittenSelect(pagPart, getValues, argID) == SelectQuery(id, createdAt, es)
  {
    assert (pagPart != []) == HasCursor(id, createdAt);
    assert (|getValues| != 0) == (|es| != 0);
  }

  /**
   * The strings.Builder part of Get: the head, "WHERE " when there is
   * anything to filter on, the cursor predicate, " AND " between it and the
   * filters, the filters joined by ", ", and the ORDER BY/LIMIT tail.
   */
  method WriteSelect(pagPart: seq<Token>, getValues: seq<seq<Token>>, argID: nat) returns (query: seq<Token>)
    ensures query == WrittenSelect(pagPart, getValues, argID)
  {
    query := [Text(SELECT_HEAD)];
    if pagPart != [] || |getValues| != 0 {
      query := query + [Text(WHERE_KEYWORD)];
    }
    if pagPart != [] {
      query := query + pagPart;
    }
    if pagPart != [] && |getValues| != 0 {
      query := query + [Text(AND_KEYWORD)];
    }
    if |getValues| != 0 {
      query := query + Join(getValues, Text(COMMA));
    }
    query := query + [Text(ORDER_LIMIT), Param(argID)];
  }

  /**
   * PersonStorage.Get up to the SelectContext call: the placeholder counter
   * `argID` and the slices `args` and `getValues` threaded through the
   * cursor part, the loop over the filter map and the ORDER BY/LIMIT tail.
   * The map is visited in an order the method does not control; `entries`
   * records the order taken.
   */
  method BuildGet(filters: map<string, Value>, id: string, createdAt: string, limit: int)
    returns (query: seq<Token>, args: seq<Value>, ghost entries: seq<Entry>)
    ensures Enumerates(entries, filters)
    ensures query == SelectQuery(id, createdAt, entries)
    ensures args == SelectArgs(id, createdAt, entries, limit)
    ensures |args| == |CursorArgs(id, createdAt)| + |filters| + 1 && args[|args| - 1] == IntVal(limit)
    ensures Params(query) == Iota(1, |args|)
  {
    var argID: nat := 1;
    args := [];

    var pagPart: seq<Token> := [];
    if id != "" && createdAt != "" {
      pagPart := CursorPredicate(argID);
      args := args + [StrVal(id), StrVal(createdAt)];
      argID := argID + 2;
    }

    assert argID == FirstFilterParam(id, createdAt);
    assert pagPart == (if HasCursor(id, createdAt) then CursorPredicate(1) else []);
    assert args == CursorArgs(id, createdAt);
    var getValues;
    getValues, args, argID, entries := CollectFragments(filters, args, argID);

    query := WriteSelect(pagPart, getValues, argID);
    SelectAssembled(id, createdAt, entries, pagPart, getValues, argID);
    args := args + [IntVal(limit)];
    SelectPlaceholders(id, createdAt, entries, limit);
  }

  lemma {:induction false} TextsHaveNoParams(q: seq<Token>)
    requires forall i | 0 <= i < |q| :: q[i].Text?
    ensures Params(q) == []
  {
    if q != [] {
      TextsHaveNoParams(q[1..]);
    }
  }

  lemma CursorPredicateParams(k: nat)
    ensures Params(CursorPredicate(k)) == [k, k + 1]
  {
    var q := CursorPredicate(k);
    assert q[5..] == [];
    ParamsStep(q, 4);
    ParamsStep(q, 3);
    ParamsStep(q, 2);
    ParamsStep(q, 1);
    ParamsStep(q, 0);
    assert q[0..] == q;
  }

  /** The prefix holds $1 and $2 when there is a cursor and no placeholder otherwise. */
  lemma SelectPrefixParams(id: string, createdAt: string, hasFilters: bool)
    ensures Params(SelectPrefix(id, createdAt, hasFilters)) == Iota(1, FirstFilterParam(id, createdAt) - 1)
  {
    if HasCursor(id, createdAt) {
      CursorPrefixParams(hasFilters);
      assert SelectPrefix(id, createdAt, hasFilters)
          == [Text(SELECT_HEAD), Text(WHERE_KEYWORD)] + CursorPredicate(1)
             + (if hasFilters then [Text(AND_KEYWORD)] else []);
    } else {
      TextsHaveNoParams(SelectPrefix(id, createdAt, hasFilters));
    }
  }

  lemma CursorPrefixParams(hasFilters: bool)
    ensures Params([Text(SELECT_HEAD), Text(WHERE_KEYWORD)] + CursorPredicate(1)
                   + (if hasFilters then [Text(AND_KEYWORD)] else [])) == [1, 2]
  {
    var hw := [Text(SELECT_HEAD), Text(WHERE_KEYWORD)];
    var a: seq<Token> := if hasFilters then [Text(AND_KEYWORD)] else [];
    TextsHaveNoParams(hw);
    TextsHaveNoParams(a);
    CursorPredicateParams(1);
    ParamsConcat(hw, CursorPredicate(1));
    ParamsConcat(hw + CursorPredicate(1), a);
  }

  /** Appending a text and the next placeholder extends the numbering by one. */
  lemma ParamsWithTail(pf: seq<Token>, text: string, m: nat)
    requires Params(pf) == Iota(1, m)
    ensures Params(pf + [Text(text), Param(m + 1)]) == Iota(1, m + 1)
  {
    var tail := [Text(text), Param(m + 1)];
    assert Params(tail) == [m + 1] by {
      ParamsStep(tail, 0);
      ParamsStep(tail, 1);
      assert tail[2..] == [] && tail[0..] == tail;
    }
    ParamsConcat(pf, tail);
    IotaConcat(1, m, 1);
    assert Iota(1 + m, 1) == [m + 1];
  }

  /**
   * Placeholders run $1, $2, ... $|args| left to right, so every `$k` has
   * 1 <= k <= |args|, and each number is used once.
   */
  lemma SelectPlaceholders(id: string, createdAt: string, es: seq<Entry>, limit: int)
    ensures var q, args := SelectQuery(id, createdAt, es), SelectArgs(id, createdAt, es, limit);
      && |args| == |CursorArgs(id, createdAt)| + |es| + 1
      && Params(q) == Iota(1, |args|)
      && (forall k | k in Params(q) :: 1 <= k <= |args|)
  {
    var start := FirstFilterParam(id, createdAt);
    var pre := SelectPrefix(id, createdAt, |es| != 0);
    var f := FragmentList(es, start);
    SelectPrefixParams(id, createdAt, |es| != 0);
    JoinedFragmentsParams(es, start, COMMA);
    ParamsConcatIota(pre, f, 1, start - 1, |es|);
    ParamsWithTail(pre + f, ORDER_LIMIT, start - 1 + |es|);
  }

  /** The query ends with the LIMIT placeholder $|args|, and `limit` is the last argument. */
  lemma SelectLimitLast(id: string, createdAt: string, es: seq<Entry>, limit: int)
    ensures var q, args := SelectQuery(id, createdAt, es), SelectArgs(id, createdAt, es, limit);
      && q[|q| - 2] == Text(ORDER_LIMIT) && q[|q| - 1] == Param(|args|)
      && args[|args| - 1] == IntVal(limit)
  {
  }

  /** "WHERE " is written exactly when there is a cursor or a filter: never dangling. */
  lemma SelectWhereIff(id: string, createdAt: string, es: seq<Entry>)
    ensures Text(WHERE_KEYWORD) in SelectQuery(id, createdAt, es)
            <==> HasCursor(id, createdAt) || |es| != 0
  {
    var q := SelectQuery(id, createdAt, es);
    if HasCursor(id, createdAt) || |es| != 0 {
      assert q[1] == Text(WHERE_KEYWORD);
    } else {
      assert q == [Text(SELECT_HEAD), Text(ORDER_LIMIT), Param(1)];
    }
  }

  /** " AND " is written exactly when both a cursor and a filter are present. */
  lemma SelectAndIff(id: string, createdAt: string, es: seq<Entry>)
    ensures Text(AND_KEYWORD) in SelectQuery(id, createdAt, es)
            <==> HasCursor(id, createdAt) && |es| != 0
  {
    var q := SelectQuery(id, createdAt, es);
    var start := FirstFilterParam(id, createdAt);
    var f := FragmentList(es, start);
    var tail := [Text(ORDER_LIMIT), Param(start + |es|)];
    if HasCursor(id, createdAt) && |es| != 0 {
      assert q[7] == Text(AND_KEYWORD);
    } else {
      assert AND_KEYWORD[|AND_KEYWORD| - 1] == ' ';
      NotInFragmentList(AND_KEYWORD, es, start);
      if HasCursor(id, createdAt) {
        assert q == [Text(SELECT_HEAD), Text(WHERE_KEYWORD)] + CursorPredicate(1) + f + tail;
      } else if |es| != 0 {
        assert q == [Text(SELECT_HEAD), Text(WHERE_KEYWORD)] + f + tail;
      } else {
        assert q == [Text(SELECT_HEAD)] + f + tail;
      }
    }
  }

  /**
   * The cursor predicate appears exactly when both cursor parts are given;
   * it then uses $1 and $2, and the arguments begin with id, createdAt.
   */
  lemma SelectCursorIff(id: string, createdAt: string, es: seq<Entry>, limit: int)
    ensures var q, args := SelectQuery(id, createdAt, es), SelectArgs(id, createdAt, es, limit);
      && (Text(CURSOR_OPEN) in q <==> HasCursor(id, createdAt))
      && (HasCursor(id, createdAt) ==>
            q[2..7] == CursorPredicate(1) && args[..2] == [StrVal(id), StrVal(createdAt)])
  {
    var q := SelectQuery(id, createdAt, es);
    var start := FirstFilterParam(id, createdAt);
    var f := FragmentList(es, start);
    var tail := [Text(ORDER_LIMIT), Param(start + |es|)];
    if !HasCursor(id, createdAt) {
      assert CURSOR_OPEN[|CURSOR_OPEN| - 1] == '(';
      NotInFragmentList(CURSOR_OPEN, es, start);
      if |es| != 0 {
        assert q == [Text(SELECT_HEAD), Text(WHERE_KEYWORD)] + f + tail;
      } else {
        assert q == [Text(SELECT_HEAD)] + f + tail;
      }
    } else {
      assert q[2] == Text(CURSOR_OPEN);
    }
  }

  /**
   * Each filter entry gets its own `column=$k` fragment, with k counting on
   * from 3 after a cursor and from 1 without one, and the k-th argument is
   * that entry's value.
   */
  lemma SelectBindsFilter(id: string, createdAt: string, es: seq<Entry>, limit: int, i: nat)
    requires i < |es|
    ensures var q, args := SelectQuery(id, createdAt, es), SelectArgs(id, createdAt, es, limit);
      var k := FirstFilterParam(id, createdAt) + i;
      && 1 <= k <= |args| && args[k - 1] == es[i].1
      && exists p | 0 <= p < |q| - 1 :: q[p] == Text(es[i].0 + "=") && q[p + 1] == Param(k)
  {
    var q := SelectQuery(id, createdAt, es);
    var start := FirstFilterParam(id, createdAt);
    var pre := SelectPrefix(id, createdAt, true);
    var f := FragmentList(es, start);
    JoinedFragmentsAt(es, start, COMMA, i);
    var p := |pre| + 3 * i;
    assert q[p] == f[3 * i] && q[p + 1] == f[3 * i + 1];
  }

  /**
   * The query text depends only on the columns and on whether there is a
   * cursor: values always travel as arguments.
   */
  lemma SelectTextIgnoresValues(id: string, createdAt: string, es: seq<Entry>,
                                id': string, createdAt': string, es': seq<Entry>)
    requires Columns(es) == Columns(es')
    requires HasCursor(id, createdAt) == HasCursor(id', createdAt')
    ensures SelectQuery(id, createdAt, es) == SelectQuery(id', createdAt', es')
  {
    var start := FirstFilterParam(id, createdAt);
    assert Fragments(es, start) == Fragments(es', start) by {
      forall i | 0 <= i < |es| ensures es[i].0 == es'[i].0 {
        assert Columns(es)[i] == Columns(es')[i];
      }
    }
  }

  // ---------------------------------------------------------------- the filter separator

  /**
   * As written, Get joins the filter predicates with ", " inside the WHERE
   * clause, so two filters arrive as `WHERE name=$1, age=$2`. A WHERE
   * search condition joins predicates with AND or OR; a comma there is a
   * syntax error.
   */
  lemma TwoFiltersCommaJoined(c0: string, v0: Value, c1: string, v1: Value)
    ensures SelectQuery("", "", [(c0, v0), (c1, v1)])
         == [Text(SELECT_HEAD), Text(WHERE_KEYWORD), Text(c0 + "="), Param(1), Text(COMMA),
             Text(c1 + "="), Param(2), Text(ORDER_LIMIT), Param(3)]
  {
    JoinedFragmentsUnfold([(c0, v0), (c1, v1)], 1, COMMA);
    assert [(c0, v0), (c1, v1)][1..] == [(c1, v1)];
  }

  /** The SELECT Get evidently means to build: the filter predicates joined by " AND ". */
  function SelectQueryIntended(id: string, createdAt: string, es: seq<Entry>): seq<Token> {
    var start := FirstFilterParam(id, createdAt);
    SelectPrefix(id, createdAt, |es| != 0)
    + JoinedFragments(es, start, AND_KEYWORD)
    + [Text(ORDER_LIMIT), Param(start + |es|)]
  }

  /**
   * In the corrected SELECT, filter i sits after the prefix at token 3 * i,
   * bound to its placeholder, and " AND " joins it to filter i + 1.
   */
  lemma SelectIntendedConjoinsFilters(id: string, createdAt: string, es: seq<Entry>, i: nat)
    requires i < |es|
    ensures var q, start := SelectQueryIntended(id, createdAt, es), FirstFilterParam(id, createdAt);
      var p := |SelectPrefix(id, createdAt, true)|;
      && |q| == p + 3 * |es| + 1
      && q[p + 3 * i] == Text(es[i].0 + "=") && q[p + 3 * i + 1] == Param(start + i)
      && (i + 1 < |es| ==> q[p + 3 * i + 2] == Text(AND_KEYWORD))
  {
    var start := FirstFilterParam(id, createdAt);
    var p := |SelectPrefix(id, createdAt, true)|;
    var f := JoinedFragments(es, start, AND_KEYWORD);
    JoinedFragmentsAt(es, start, AND_KEYWORD, i);
    var q := SelectQueryIntended(id, createdAt, es);
    assert q[p + 3 * i] == f[3 * i] && q[p + 3 * i + 1] == f[3 * i + 1];
    if i + 1 < |es| {
      assert q[p + 3 * i + 2] == f[3 * i + 2];
    }
  }

  /** Joined by " AND ", the filter predicates hold no ", " at all. */
  lemma ConjunctionHasNoComma(es: seq<Entry>, start: nat)
    ensures Text(COMMA) !in JoinedFragments(es, start, AND_KEYWORD)
  {
    var f := JoinedFragments(es, start, AND_KEYWORD);
    if |es| > 0 {
      JoinedFragmentsAt(es, start, AND_KEYWORD, 0);
    }
    forall j | 0 <= j < |f| ensures f[j] != Text(COMMA) {
      var k := j / 3;
      assert j == 3 * k + j % 3;
      JoinedFragmentsAt(es, start, AND_KEYWORD, k);
      assert (es[k].0 + "=")[|es[k].0|] == '=';
    }
  }

  /** The corrected SELECT binds the same arguments: its placeholders run $1..$|args|. */
  lemma SelectIntendedPlaceholders(id: string, createdAt: string, es: seq<Entry>, limit: int)
    ensures Params(SelectQueryIntended(id, createdAt, es)) == Iota(1, |SelectArgs(id, createdAt, es, limit)|)
  {
    var start := FirstFilterParam(id, createdAt);
    var pre := SelectPrefix(id, createdAt, |es| != 0);
    var f := JoinedFragments(es, start, AND_KEYWORD);
    SelectPrefixParams(id, createdAt, |es| != 0);
    JoinedFragmentsParams(es, start, AND_KEYWORD);
    ParamsConcatIota(pre, f, 1, start - 1, |es|);
    ParamsWithTail(pre + f, ORDER_LIMIT, start - 1 + |es|);
  }

  /** With two filters, the corrected SELECT reads `WHERE c0=$1 AND c1=$2`. */
  lemma TwoFiltersIntended(c0: string, v0: Value, c1: string, v1: Value)
    ensures SelectQueryIntended("", "", [(c0, v0), (c1, v1)])
         == [Text(SELECT_HEAD), Text(WHERE_KEYWORD), Text(c0 + "="), Param(1), Text(AND_KEYWORD),
             Text(c1 + "="), Param(2), Text(ORDER_LIMIT), Param(3)]
  {
    JoinedFragmentsUnfold([(c0, v0), (c1, v1)], 1, AND_KEYWORD);
    assert [(c0, v0), (c1, v1)][1..] == [(c1, v1)];
  }

  // ---------------------------------------------------------------- Update

  /** The UPDATE that Update builds when `range fields` visits the entries `es`. */
  function UpdateQuery(es: seq<Entry>): seq<Token> {
    [Text(UPDATE_HEAD)] + FragmentList(es, 1) + [Text(WHERE_ID), Param(|es| + 1)]
  }

  function UpdateArgs(id: string, es: seq<Entry>): seq<Value> {
    Values(es) + [StrVal(id)]
  }

  /**
   * PersonStorage.Update up to the ExecContext call: one `column=$k` per
   * field, then `WHERE id=$n+1`. There is no check that `fields` is non-empty.
   */
  method BuildUpdate(id: string, fields: map<string, Value>)
    returns (query: seq<Token>, args: seq<Value>, ghost entries: seq<Entry>)
    ensures Enumerates(entries, fields)
    ensures query == UpdateQuery(entries)
    ensures args == UpdateArgs(id, entries)
    ensures |args| == |fields| + 1 && args[|args| - 1] == StrVal(id)
    ensures Params(query) == Iota(1, |args|)
  {
    var setValues;
    var argID: nat;
    setValues, args, argID, entries := CollectFragments(fields, [], 1);

    query := [Text(UPDATE_HEAD)] + Join(setValues, Text(COMMA)) + [Text(WHERE_ID), Param(argID)];
    args := args + [StrVal(id)];
    UpdatePlaceholders(id, entries);
  }

  /**
   * SET placeholders run $1..$n for the n fields and `WHERE id=$n+1` closes
   * the query, with `id` the last of the n + 1 arguments.
   */
  lemma UpdatePlaceholders(id: string, es: seq<Entry>)
    ensures var q, args := UpdateQuery(es), UpdateArgs(id, es);
      && |args| == |es| + 1
      && Params(q) == Iota(1, |args|)
      && q[|q| - 2] == Text(WHERE_ID) && q[|q| - 1] == Param(|es| + 1)
      && args[|args| - 1] == StrVal(id)
  {
    var f := FragmentList(es, 1);
    var tail := [Text(WHERE_ID), Param(|es| + 1)];
    ParamsConcat([Text(UPDATE_HEAD)] + f, tail);
    ParamsConcat([Text(UPDATE_HEAD)], f);
    ParamsConcat([Text(WHERE_ID)], [Param(|es| + 1)]);
    JoinedFragmentsParams(es, 1, COMMA);
    IotaConcat(1, |es|, 1);
  }

  /** Field i is set by `column=$(i+1)`, and argument i is its new value. */
  lemma UpdateBindsField(id: string, es: seq<Entry>, i: nat)
    requires i < |es|
    ensures var q, args := UpdateQuery(es), UpdateArgs(id, es);
      && args[i] == es[i].1
      && exists p | 0 <= p < |q| - 1 :: q[p] == Text(es[i].0 + "=") && q[p + 1] == Param(i + 1)
  {
    var q := UpdateQuery(es);
    var f := FragmentList(es, 1);
    JoinedFragmentsAt(es, 1, COMMA, i);
    assert q[1 + 3 * i] == f[3 * i] && q[2 + 3 * i] == f[3 * i + 1];
  }

  /** An empty field map still yields a statement: an empty SET list and `WHERE id=$1`. */
  lemma UpdateWithoutFields(id: string)
    ensures UpdateQuery([]) == [Text(UPDATE_HEAD), Text(WHERE_ID), Param(1)]
    ensures UpdateArgs(id, []) == [StrVal(id)]
    ensures Render(UpdateQuery([])) == "UPDATE persons SET  WHERE id=$1"
  {
    assert UpdateQuery([]) == [Text(UPDATE_HEAD), Text(WHERE_ID), Param(1)];
    assert Strconv.FormatDecimal(1) == "1";
  }

  /**
   * The UPDATE Update evidently means to build: an empty field map, whose
   * `SET  WHERE` no SQL grammar accepts, is refused instead of sent.
   */
  function UpdateStatementIntended(id: string, es: seq<Entry>): (r: Option<(seq<Token>, seq<Value>)>)
    ensures r.None? <==> es == []
  {
    if es == [] then None else Some((UpdateQuery(es), UpdateArgs(id, es)))
  }

  /**
   * Every statement the corrected Update sends assigns at least one column:
   * `SET` is followed by the first `column=$1`, and `WHERE id=` by the
   * placeholder after the last assignment's, never by an empty list.
   */
  lemma UpdateIntendedAssigns(id: string, es: seq<Entry>)
    ensures var r := UpdateStatementIntended(id, es);
      r.Some? ==>
        var q := r.value.0;
        && q == UpdateQuery(es)
        && |q| == 3 * |es| + 2
        && q[0] == Text(UPDATE_HEAD) && q[1] == Text(es[0].0 + "=") && q[2] == Param(1)
        && q[|q| - 3] == Param(|es|) && q[|q| - 2] == Text(WHERE_ID) && q[|q| - 1] == Param(|es| + 1)
        && r.value.1 == Values(es) + [StrVal(id)]
  {
    if es != [] {
      var f := FragmentList(es, 1);
      JoinedFragmentsAt(es, 1, COMMA, 0);
      JoinedFragmentsAt(es, 1, COMMA, |es| - 1);
      var q := UpdateQuery(es);
      assert q[1] == f[0] && q[2] == f[1];
      assert q[|q| - 3] == f[3 * (|es| - 1) + 1];
    }
  }

  /** The SET text depends only on the columns, never on the new values. */
  lemma UpdateTextIgnoresValues(es: seq<Entry>, es': seq<Entry>)
    requires Columns(es) == Columns(es')
    ensures UpdateQuery(es) == UpdateQuery(es')
  {
    assert Fragments(es, 1) == Fragments(es', 1) by {
      forall i | 0 <= i < |es| ensures es[i].0 == es'[i].0 {
        assert Columns(es)[i] == Columns(es')[i];
      }
    }
  }

  // ---------------------------------------------------------------- Save

  /** `$lo,$lo+1,...` with n placeholders, as the VALUES list spells them. */
  function PlaceholderList(lo: nat, n: nat): seq<Token>
    decreases n
  {
    if n == 0 then []
    else if n == 1 then [Param(lo)]
    else [Param(lo), Text(",")] + PlaceholderList(lo + 1, n - 1)
  }

  lemma {:induction false} PlaceholderListParams(lo: nat, n: nat)
    ensures Params(PlaceholderList(lo, n)) == Iota(lo, n)
    decreases n
  {
    if n == 1 {
      assert Params([Param(lo)]) == [lo] + Params([]);
    } else if n > 1 {
      ParamsConcat([Param(lo), Text(",")], PlaceholderList(lo + 1, n - 1));
      ParamsConcat([Param(lo)], [Text(",")]);
      PlaceholderListParams(lo + 1, n - 1);
    }
  }

  /** `INSERT INTO persons (...) VALUES ($1,$2,$3,$4,$5,$6,$7,$8)`. */
  const INSERT_QUERY: seq<Token> := [Text(INSERT_HEAD)] + PlaceholderList(1, 8) + [Text(")")]

  /** The arguments Save binds: one per column of the INSERT, each the field its `db` tag names. */
  function SaveArgs(p: Person): (args: seq<Value>)
    ensures |args| == |PERSON_COLUMNS| == 8
    ensures forall i | 0 <= i < |args| :: ColumnValue(p, PERSON_COLUMNS[i]) == Some(args[i])
  {
    [StrVal(p.id), StrVal(p.name), StrVal(p.surname), StrVal(p.patronymic),
     Int8Val(p.age), StrVal(p.gender), StrVal(p.nationality), TimeVal(p.createdAt)]
  }

  /** Scanning a row of table persons, columns in table order, back into a Person. */
  function PersonFromRow(row: seq<Value>): Option<Person> {
    if |row| == 8 && row[0].StrVal? && row[1].StrVal? && row[2].StrVal? && row[3].StrVal?
       && row[4].Int8Val? && row[5].StrVal? && row[6].StrVal? && row[7].TimeVal?
    then Some(Person(row[0].s, row[1].s, row[2].s, row[3].s, row[4].b, row[5].s, row[6].s, row[7].t))
    else None
  }

  /** The row Save writes scans back to the person that was saved. */
  lemma SaveRoundTrip(p: Person)
    ensures PersonFromRow(SaveArgs(p)) == Some(p)
  {
  }

  /** The INSERT's placeholders are $1..$8, one per argument. */
  lemma InsertPlaceholders(p: Person)
    ensures Params(INSERT_QUERY) == Iota(1, |SaveArgs(p)|)
  {
    var values := PlaceholderList(1, 8);
    PlaceholderListParams(1, 8);
    ParamsInsideTexts(INSERT_HEAD, values, ")");
  }

  lemma ParamsInsideTexts(head: string, q: seq<Token>, tail: string)
    ensures Params([Text(head)] + q + [Text(tail)]) == Params(q)
  {
    ParamsConcat([Text(head)] + q, [Text(tail)]);
    ParamsConcat([Text(head)], q);
    TextsHaveNoParams([Text(head)]);
    TextsHaveNoParams([Text(tail)]);
  }
}
