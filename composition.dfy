/**
 * Properties of the handlers and the storage builders taken together: what
 * a request that passes the handler guards turns into at the storage layer.
 */
module Composition {
  import opened Models
  import opened Wrappers
  import opened Sql
  import opened Storage
  import opened Handlers

  /**
   * A lone cursor part passes validatePersonIDAndCreatedAtQuery and is then
   * dropped by Get: the query and its arguments are those of no cursor at all.
   */
  lemma LoneCursorPartIgnored(part: string, isUuid: string -> bool, isTimestamp: string -> bool,
                              es: seq<Entry>, limit: int)
    requires part != ""
    ensures isUuid(part) ==>
      && ValidateCursorQuery(part, "", isUuid, isTimestamp) == Pass
      && SelectQuery(part, "", es) == SelectQuery("", "", es)
      && SelectArgs(part, "", es, limit) == SelectArgs("", "", es, limit)
    ensures isTimestamp(part) ==>
      && ValidateCursorQuery("", part, isUuid, isTimestamp) == Pass
      && SelectQuery("", part, es) == SelectQuery("", "", es)
      && SelectArgs("", part, es, limit) == SelectArgs("", "", es, limit)
  {
    LoneCursorPartValidates(part, isUuid, isTimestamp);
    SelectTextIgnoresValues(part, "", es, "", "", es);
    SelectTextIgnoresValues("", part, es, "", "", es);
  }

  /** The fixed texts of the SELECT, none of which ends in '='. */
  lemma SelectFixedTexts(id: string, createdAt: string, es: seq<Entry>, t: Token)
    requires t in SelectQuery(id, createdAt, es) && t.Text? && EndsWithEquals(t.s)
    ensures t in FragmentList(es, FirstFilterParam(id, createdAt))
  {
    var start := FirstFilterParam(id, createdAt);
    var pre := SelectPrefix(id, createdAt, |es| != 0);
    var tail := [Text(ORDER_LIMIT), Param(start + |es|)];
    assert SelectQuery(id, createdAt, es) == pre + FragmentList(es, start) + tail;
    assert SELECT_HEAD[|SELECT_HEAD| - 1] == ' ' && WHERE_KEYWORD[|WHERE_KEYWORD| - 1] == ' ';
    assert CURSOR_OPEN[|CURSOR_OPEN| - 1] == '(' && COMMA[|COMMA| - 1] == ' ';
    assert CURSOR_CLOSE[|CURSOR_CLOSE| - 1] == ')' && AND_KEYWORD[|AND_KEYWORD| - 1] == ' ';
    assert ORDER_LIMIT[|ORDER_LIMIT| - 1] == ' ';
    assert t !in pre;
    assert t !in tail;
  }

  /**
   * Whatever the query string held, a filter map from queryToMap only names
   * allow-listed columns, so every `column=` written into the SELECT is one
   * of name, surname, age, gender and nationality.
   */
  lemma FilterColumnsAllowListed(filters: map<string, Value>, es: seq<Entry>, id: string, createdAt: string)
    requires filters.Keys <= FILTER_COLUMNS
    requires Enumerates(es, filters)
    ensures forall t | t in SelectQuery(id, createdAt, es) && t.Text? && EndsWithEquals(t.s) ::
              t.s[..|t.s| - 1] in FILTER_COLUMNS
  {
    var start := FirstFilterParam(id, createdAt);
    FragmentListTexts(es, start);
    forall t | t in SelectQuery(id, createdAt, es) && t.Text? && EndsWithEquals(t.s)
      ensures t.s[..|t.s| - 1] in FILTER_COLUMNS
    {
      SelectFixedTexts(id, createdAt, es, t);
      assert COMMA[|COMMA| - 1] == ' ';
      var c := t.s[..|t.s| - 1];
      assert c in Columns(es);
      var i :| 0 <= i < |es| && Columns(es)[i] == c;
      assert es[i].0 in filters;
    }
  }

  /** A column the map does not hold is never assigned in the fragment list. */
  lemma AbsentColumnNotAssigned(fields: map<string, Value>, es: seq<Entry>, start: nat, c: string)
    requires Enumerates(es, fields) && c !in fields
    ensures Text(c + "=") !in FragmentList(es, start)
  {
    FragmentListTexts(es, start);
    assert (c + "=")[..|c|] == c;
    assert c !in Columns(es) by {
      forall i | 0 <= i < |es| ensures Columns(es)[i] != c {
        assert es[i].0 in fields;
      }
    }
    assert COMMA[|COMMA| - 1] == ' ';
  }

  /**
   * An update map from toMap only names the six editable columns, so the
   * UPDATE never assigns `id=` or `created_at=`.
   */
  lemma UpdateNeverTouchesIdentity(fields: map<string, Value>, es: seq<Entry>)
    requires fields.Keys <= UPDATABLE_COLUMNS
    requires Enumerates(es, fields)
    ensures Text("id=") !in UpdateQuery(es) && Text("created_at=") !in UpdateQuery(es)
  {
    assert "id" !in fields && "created_at" !in fields;
    AbsentColumnNotAssigned(fields, es, 1, "id");
    AbsentColumnNotAssigned(fields, es, 1, "created_at");
    assert "id" + "=" == "id=" && "created_at" + "=" == "created_at=";
    var tail := [Text(WHERE_ID), Param(|es| + 1)];
    assert UpdateQuery(es) == [Text(UPDATE_HEAD)] + FragmentList(es, 1) + tail;
  }
}
