/**
 * dbq.py: `queryConstructor`, which assembles an InfluxQL SELECT statement
 * from a query description. Talking to the database is not part of this
 * model.
 */
module Dbq {
  import opened Wrappers
  import opened Text

  /** The look-back window: an hour count, or text to be read with `int()`. */
  datatype DTime = HoursInt(hours: int) | HoursText(text: string)

  /** The fields to select: a list with optional labels, or a single field. */
  datatype Fields =
    | FieldList(names: seq<string>, labels: Option<seq<string>>)
    | SingleField(name: string, fieldLabel: Option<string>)

  /** The tag values to match: a list (one OR term each, grouped by the tag) or a single value. */
  datatype TagVals = TagList(vals: seq<string>) | TagScalar(val: string)

  datatype DbQuery = DbQuery(dbType: string, fields: Fields, metricname: string,
                             tagnames: Option<string>, tagvals: TagVals)

  /** A field list with no labels at all: `None[i]` raises TypeError, which the loop does not catch. */
  datatype DbqError = LabelsNotSubscriptable

  /** The hour count used: a text that `int()` rejects falls back to 1. */
  function Hours(dtime: DTime): (h: int)
    ensures dtime.HoursInt? ==> h == dtime.hours
    ensures dtime.HoursText? ==> (ParseInt(dtime.text).Some? ==> h == ParseInt(dtime.text).value)
    ensures dtime.HoursText? ==> (ParseInt(dtime.text).None? ==> h == 1)
  {
    match dtime
    case HoursInt(n) => n
    case HoursText(s) =>
      match ParseInt(s)
      case Some(n) => n
      case None => 1
  }

  /** An hour count given as its `%d` text is read back exactly. */
  lemma HoursOfText(n: int)
    ensures Hours(HoursText(IntToString(n))) == Hours(HoursInt(n)) == n
  {
    ParseIntOfIntToString(n);
  }

  /** ` "f" AS "label"`, or ` "f"` once the labels have run out; the field name is stripped. */
  function SelectTerm(names: seq<string>, labels: seq<string>, i: nat): string
    requires i < |names|
  {
    var name := Strip(names[i]);
    if i < |labels| then " \"" + name + "\" AS \"" + labels[i] + "\"" else " \"" + name + "\""
  }

  /**
   * One field's text: its term, then `,` or, after the last field, a space.
   * The term is written out again rather than taken from `SelectTerm`:
   * the field loop's proof in `SelectList` is cheaper against this form, and
   * `FieldTermIsTerm` shows that the two agree.
   */
  function FieldTerm(names: seq<string>, labels: seq<string>, i: nat): string
    requires i < |names|
  {
    var name := Strip(names[i]);
    var term := if i < |labels| then " \"" + name + "\" AS \"" + labels[i] + "\"" else " \"" + name + "\"";
    term + (if i != |names| - 1 then "," else " ")
  }

  /** The terms of the first `n` fields. */
  function FieldsUpTo(names: seq<string>, labels: seq<string>, n: nat): string
    requires n <= |names|
  {
    if n == 0 then "" else FieldsUpTo(names, labels, n - 1) + FieldTerm(names, labels, n - 1)
  }

  /** The select-list terms without their separators. */
  function SelectTerms(names: seq<string>, labels: seq<string>): (r: seq<string>)
    ensures |r| == |names|
  {
    seq(|names|, i requires 0 <= i < |names| => SelectTerm(names, labels, i))
  }

  /** One field's text is its term, then "," or, after the last field, a space. */
  lemma FieldTermIsTerm(names: seq<string>, labels: seq<string>, i: nat)
    requires i < |names|
    ensures FieldTerm(names, labels, i)
         == SelectTerms(names, labels)[i] + (if i != |names| - 1 then "," else " ")
  {
  }

  /** Before the last field, the field loop writes each term followed by ",". */
  lemma {:induction false} FieldsUpToSep(names: seq<string>, labels: seq<string>, n: nat)
    requires n < |names|
    ensures FieldsUpTo(names, labels, n) == SepUpTo(SelectTerms(names, labels), ",", n)
  {
    if n > 0 {
      var terms := SelectTerms(names, labels);
      FieldsUpToSep(names, labels, n - 1);
      FieldTermIsTerm(names, labels, n - 1);
      assert FieldTerm(names, labels, n - 1) == terms[n - 1] + ",";
      assert FieldsUpTo(names, labels, n) == FieldsUpTo(names, labels, n - 1) + (terms[n - 1] + ",");
      assert SepUpTo(terms, ",", n) == SepUpTo(terms, ",", n - 1) + terms[n - 1] + ",";
      Reassociate(FieldsUpTo(names, labels, n - 1), terms[n - 1], ",");
    }
  }

  /** Text glue for `FieldsUpToSep`: a term and its separator appended together or one after the other. */
  lemma Reassociate(a: string, t: string, sep: string)
    ensures a + (t + sep) == a + t + sep
  {
  }

  /** A non-empty list of fields with labels gives `",".join` of the terms, then a space. */
  lemma FieldListClause(names: seq<string>, labels: seq<string>)
    requires names != []
    ensures FieldsClause(FieldList(names, Some(labels))).Ok?
    ensures FieldsClause(FieldList(names, Some(labels))).value == Join(SelectTerms(names, labels), ",") + " "
  {
    var terms := SelectTerms(names, labels);
    var last := |names| - 1;
    var before := SepUpTo(terms, ",", last);
    var t := terms[last];
    FieldsUpToSep(names, labels, last);
    FieldTermIsTerm(names, labels, last);
    assert FieldsUpTo(names, labels, |names|) == before + (t + " ");
    assert SepUpTo(terms, ",", |names|) == before + t + "";
    SepUpToJoin(terms, ",", |names|);
    assert terms[..|names|] == terms;
    LastTermJoined(before, t, Join(terms, ","));
  }

  /** Text glue for `FieldListClause`: dropping an empty tail, then moving the space out. */
  lemma LastTermJoined(before: string, t: string, joined: string)
    requires before + t + "" == joined + ""
    ensures before + (t + " ") == joined + " "
  {
    assert before + t + "" == before + t;
    assert joined + "" == joined;
  }

  /** `"tag"='value'` for one tag value. */
  function TagTerm(tag: string, val: string): string
  {
    "\"" + tag + "\"='" + Strip(val) + "'"
  }

  function TagTerms(tag: string, vals: seq<string>): (r: seq<string>)
    ensures |r| == |vals|
  {
    seq(|vals|, i requires 0 <= i < |vals| => TagTerm(tag, vals[i]))
  }

  /** The select list, or the error the field loop raises. */
  function FieldsClause(fields: Fields): Result<string, DbqError>
  {
    match fields
    case FieldList(names, labels) =>
      if names == [] then Ok("")
      else if labels.None? then Err(LabelsNotSubscriptable)
      else Ok(FieldsUpTo(names, labels.value, |names|))
    case SingleField(name, fieldLabel) =>
      match fieldLabel
      case Some(l) => Ok(" \"" + name + "\" AS \"" + l + "\" ")
      case None => Ok(" \"" + name + "\" ")
  }

  /** `FROM "<metric>" WHERE time > now() - <hours, %02d>h`. */
  function WhereClause(metricname: string, hours: int): string
  {
    "FROM \"" + metricname + "\"" + " WHERE time > now() - " + Pad2(hours) + "h"
  }

  /** The tag condition; nothing without a tag name or with an empty list of values. */
  function TagClause(tagnames: Option<string>, tagvals: TagVals): string
  {
    match tagnames
    case None => ""
    case Some(tag) =>
      match tagvals
      case TagList(vals) =>
        if vals == [] then ""
        else " AND (" + SepUpTo(TagTerms(tag, vals), " OR ", |vals|) + ") GROUP BY \"" + tag + "\""
      case TagScalar(v) => " AND (\"" + tag + "\"='" + v + "')"
  }

  /** What `queryConstructor` returns: None for a database that is not InfluxDB. */
  function QueryOf(db: DbQuery, dtime: DTime): (r: Result<Option<string>, DbqError>)
    ensures r == Ok(None) <==> Lower(db.dbType) != "influxdb"
  {
    if Lower(db.dbType) != "influxdb" then Ok(None)
    else
      match FieldsClause(db.fields)
      case Err(e) => Err(e)
      case Ok(f) => Ok(Some("SELECT" + f + WhereClause(db.metricname, Hours(dtime)) + TagClause(db.tagnames, db.tagvals)))
  }

  /** The field loop of `queryConstructor`: the select list, term by term. */
  method SelectList(fields: Fields) returns (r: Result<string, DbqError>)
    ensures r == FieldsClause(fields)
  {
    match fields {
      case FieldList(names, labels) =>
        if names != [] && labels.None? {
          return Err(LabelsNotSubscriptable);
        }
        var fieldLabels := if labels.Some? then labels.value else [];
        var part := "";
        for i := 0 to |names|
          invariant part == FieldsUpTo(names, fieldLabels, i)
        {
          var each := Strip(names[i]);
          var term := if i < |fieldLabels| then " \"" + each + "\" AS \"" + fieldLabels[i] + "\""
                      else " \"" + each + "\"";
          var sep := if i != |names| - 1 then "," else " ";
          assert term + sep == FieldTerm(names, fieldLabels, i);
          part := part + (term + sep);
        }
        r := Ok(part);
      case SingleField(name, fieldLabel) =>
        if fieldLabel.Some? {
          r := Ok(" \"" + name + "\" AS \"" + fieldLabel.value + "\" ");
        } else {
          r := Ok(" \"" + name + "\" ");
        }
    }
  }

  /** The tag branch of `queryConstructor`: the condition, one OR term per listed value. */
  method TagCondition(tagnames: Option<string>, tagvals: TagVals) returns (r: string)
    ensures r == TagClause(tagnames, tagvals)
  {
    var vals := if tagnames.Some? then tagvals else TagList([]);
    r := "";
    if vals != TagList([]) {
      var tag := tagnames.value;
      match vals {
        case TagList(vs) =>
          var clause := "";
          for i := 0 to |vs|
            invariant clause == SepUpTo(TagTerms(tag, vs), " OR ", i)
          {
            ghost var before := clause;
            assert TagTerms(tag, vs)[i] == TagTerm(tag, vs[i]);
            clause := clause + TagTerm(tag, vs[i]);
            if i != |vs| - 1 {
              clause := clause + " OR ";
            }
            assert clause == before + TagTerm(tag, vs[i]) + (if i != |vs| - 1 then " OR " else "");
          }
          r := " AND (" + clause + ") GROUP BY \"" + tag + "\"";
        case TagScalar(v) =>
          r := " AND (\"" + tag + "\"='" + v + "')";
      }
    }
  }

  /** `queryConstructor`: SELECT, the select list, FROM and WHERE, then the tag condition. */
  method QueryConstructor(db: DbQuery, dtime: DTime) returns (r: Result<Option<string>, DbqError>)
    ensures r == QueryOf(db, dtime)
  {
    var hours := Hours(dtime);
    if Lower(db.dbType) != "influxdb" {
      return Ok(None);
    }
    var selectList := SelectList(db.fields);
    if selectList.Err? {
      return Err(selectList.error);
    }
    var query := "SELECT" + selectList.value;
    query := query + "FROM \"" + db.metricname + "\"";
    query := query + " WHERE time > now() - " + Pad2(hours) + "h";
    assert query == "SELECT" + selectList.value + WhereClause(db.metricname, hours);
    var tags := TagCondition(db.tagnames, db.tagvals);
    query := query + tags;
    r := Ok(Some(query));
  }

  /** A statement is SELECT, the select list, the FROM/WHERE clause and the tag condition. */
  lemma QueryParts(db: DbQuery, dtime: DTime)
    requires QueryOf(db, dtime).Ok? && QueryOf(db, dtime).value.Some?
    ensures FieldsClause(db.fields).Ok?
    ensures QueryOf(db, dtime).value.value
         == "SELECT" + FieldsClause(db.fields).value + WhereClause(db.metricname, Hours(dtime))
            + TagClause(db.tagnames, db.tagvals)
  {
  }

  /** Every statement starts with SELECT; with no fields the select list is empty ("SELECTFROM"). */
  lemma StartsWithSelect(db: DbQuery, dtime: DTime)
    requires QueryOf(db, dtime).Ok? && QueryOf(db, dtime).value.Some?
    ensures StartsWith(QueryOf(db, dtime).value.value, "SELECT")
    ensures db.fields.FieldList? && db.fields.names == [] ==>
      StartsWith(QueryOf(db, dtime).value.value, "SELECTFROM \"")
  {
    var f := FieldsClause(db.fields).value;
    var where := WhereClause(db.metricname, Hours(dtime));
    var tags := TagClause(db.tagnames, db.tagvals);
    QueryParts(db, dtime);
    PrefixStartsWith("SELECT", f);
    StartsWithAppend("SELECT" + f, "SELECT", where);
    StartsWithAppend("SELECT" + f + where, "SELECT", tags);
    if db.fields.FieldList? && db.fields.names == [] {
      var head := "SELECTFROM \"";
      var after := db.metricname + "\"" + " WHERE time > now() - " + Pad2(Hours(dtime)) + "h";
      assert "SELECT" + f + where == head + after by {
        assert f == "";
        assert "SELECT" + f + where == "SELECT" + where;
        WhereParts(db.metricname, Hours(dtime));
      }
      PrefixStartsWith(head, after);
      StartsWithAppend(head + after, head, tags);
    }
  }

  /** The FROM/WHERE clause after its opening `FROM "`. */
  lemma WhereParts(metricname: string, hours: int)
    ensures "SELECT" + WhereClause(metricname, hours)
         == "SELECTFROM \"" + (metricname + "\"" + " WHERE time > now() - " + Pad2(hours) + "h")
  {
  }

  /** The hour count in the WHERE clause reads back as the window asked for. */
  lemma WhereHoursReadBack(metricname: string, hours: int)
    ensures var w := WhereClause(metricname, hours);
      var start := |metricname| + 29;
      && |w| == start + |Pad2(hours)| + 1
      && ParseInt(w[start..|w| - 1]) == Some(hours)
      && w[|w| - 1] == 'h'
  {
    var w := WhereClause(metricname, hours);
    var head := "FROM \"" + metricname + "\"" + " WHERE time > now() - ";
    assert |head| == |metricname| + 29;
    assert w == head + Pad2(hours) + "h";
    assert w[|head|..|w| - 1] == Pad2(hours);
    ParseIntOfPad2(hours);
  }

  /** Without a tag name the statement ends with the WHERE clause. */
  lemma NoTagNameNoClause(db: DbQuery, dtime: DTime)
    requires db.tagnames.None?
    requires QueryOf(db, dtime).Ok? && QueryOf(db, dtime).value.Some?
    ensures var q := QueryOf(db, dtime).value.value;
      var w := WhereClause(db.metricname, Hours(dtime));
      |w| <= |q| && q[|q| - |w|..] == w
  {
    var q := QueryOf(db, dtime).value.value;
    var w := WhereClause(db.metricname, Hours(dtime));
    assert q == ("SELECT" + FieldsClause(db.fields).value) + w;
  }

  /**
   * A list of tag values becomes " AND (" + the terms joined by " OR " +
   * ") GROUP BY" the tag.
   */
  lemma TagListClause(tag: string, vals: seq<string>)
    requires vals != []
    ensures TagClause(Some(tag), TagList(vals))
         == " AND (" + Join(TagTerms(tag, vals), " OR ") + ") GROUP BY \"" + tag + "\""
  {
    var terms := TagTerms(tag, vals);
    var joined := Join(terms, " OR ");
    SepUpToJoin(terms, " OR ", |vals|);
    assert terms[..|vals|] == terms;
    assert SepUpTo(terms, " OR ", |vals|) == joined + "";
    assert joined + "" == joined;
  }

  /**
   * A single tag value is one equality: the tag and the value read back
   * between their quotes, and the clause closes with "')", not with the
   * quoted tag a GROUP BY ends in.
   */
  lemma TagScalarClause(tag: string, v: string)
    ensures var c := TagClause(Some(tag), TagScalar(v));
      && |c| == |tag| + |v| + 12
      && c[..7] == " AND (\""
      && c[7..7 + |tag|] == tag
      && c[7 + |tag|..|tag| + 10] == "\"='"
      && c[|tag| + 10..|c| - 2] == v
      && c[|c| - 2..] == "')"
  {
    var c := TagClause(Some(tag), TagScalar(v));
    assert c == " AND (\"" + (tag + ("\"='" + (v + "')")));
    assert c[7..] == tag + ("\"='" + (v + "')"));
    assert c[|tag| + 10..] == v + "')";
  }

  /** A scalar value and a non-empty list never give the same condition: only the list ends in GROUP BY the tag. */
  lemma ScalarIsNotGrouped(tag: string, v: string, other: string, vals: seq<string>)
    requires vals != []
    ensures var g := TagClause(Some(other), TagList(vals));
      && g[|g| - 1] == '"'
      && TagClause(Some(tag), TagScalar(v))[|TagClause(Some(tag), TagScalar(v))| - 1] == ')'
      && TagClause(Some(tag), TagScalar(v)) != g
  {
    var c := TagClause(Some(tag), TagScalar(v));
    TagScalarClause(tag, v);
    assert c[|c| - 1] == c[|c| - 2..][1];
  }

  /** The database type is compared without regard to case. */
  lemma TypeCaseInsensitive(db: DbQuery, other: string, dtime: DTime)
    requires Lower(other) == Lower(db.dbType)
    ensures QueryOf(db.(dbType := other), dtime) == QueryOf(db, dtime)
  {
  }
}
