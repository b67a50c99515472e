/**
 * The fluent query builder of the `dirtybase_db` crate. A `QueryBuilder`
 * accumulates target tables, an optional select list, an optional map of
 * columns to set, an optional list of joins and an ordered list of tagged
 * where-clauses; each fluent call changes the builder in place.
 */
module QueryBuilders {
  import opened Wrappers
  import opened QueryTypes
  import Conditions

  /** The tag a new condition receives, as the source is written: the first
      bare condition is `First`; every other condition, whether asked for
      with `and_*`, with `or_*` or bare, goes through `and_where` or
      `or_where`, and both of those push `Or`. */
  function PushedTag(existing: seq<WhereJoinOperator>, andOr: Option<WhereJoin>, c: Condition)
    : (w: WhereJoinOperator)
    ensures w.condition == c
    ensures w.First? <==> andOr == None && existing == []
    ensures !w.First? ==> w.Or?
  {
    match andOr
    case Some(AndJoin) => Or(c)
    case Some(OrJoin) => Or(c)
    case None => if existing == [] then First(c) else Or(c)
  }

  /** A clause list has the intended shape: its first clause, and only that
      one, carries no connective. */
  ghost predicate WellTagged(ws: seq<WhereJoinOperator>) {
    forall i :: 0 <= i < |ws| ==> (ws[i].First? <==> i == 0)
  }

  /** The tag a new condition receives once `and_where` pushes `And`, as
      its name says: an `and_*` condition is `And`, an `or_*` one `Or`, and
      a bare one `First` when it is the first condition and `And` after
      that. The builder's methods push `PushedTag`, as the code is written. */
  function ClauseTag(existing: seq<WhereJoinOperator>, andOr: Option<WhereJoin>, c: Condition)
    : (w: WhereJoinOperator)
    ensures w.condition == c
    ensures w.First? <==> andOr == None && existing == []
    ensures w.Or? <==> andOr == Some(OrJoin)
    ensures w.And? <==> andOr == Some(AndJoin) || (andOr == None && existing != [])
  {
    match andOr
    case Some(AndJoin) => And(c)
    case Some(OrJoin) => Or(c)
    case None => if existing == [] then First(c) else And(c)
  }

  /** The code as written and the repaired builder disagree exactly on the
      conditions that go through `and_where`: an `and_*` call, or a bare
      call after the first condition. */
  lemma TagsDifferIff(existing: seq<WhereJoinOperator>, andOr: Option<WhereJoin>, c: Condition)
    ensures PushedTag(existing, andOr, c) != ClauseTag(existing, andOr, c)
            <==> andOr == Some(AndJoin) || (andOr == None && existing != [])
  {
  }

  /** With the repaired tag, a list that starts with a bare condition stays
      well tagged whatever is added after it. An `or_*` or `and_*` call on
      an empty builder still starts the list with a tagged clause (the
      second requires), so not every builder is well tagged; the orm
      generator's text does not depend on it, since it gives the first
      clause no connective whatever its tag (`OrmMySql.Connectives`). */
  lemma ClauseTagKeepsShape(ws: seq<WhereJoinOperator>, andOr: Option<WhereJoin>, c: Condition)
    requires WellTagged(ws)
    requires ws == [] ==> andOr == None
    ensures WellTagged(ws + [ClauseTag(ws, andOr, c)])
  {
    var ws' := ws + [ClauseTag(ws, andOr, c)];
    forall i | 0 <= i < |ws'|
      ensures ws'[i].First? <==> i == 0
    {
      if i < |ws| { assert ws'[i] == ws[i]; }
    }
  }

  /** As written, `and_where` tags its condition `Or`: an `and_*` call never
      produces `And`, and as the first call it does not produce `First`. */
  lemma AndWhereTagsOr(ws: seq<WhereJoinOperator>, c: Condition)
    ensures PushedTag(ws, Some(AndJoin), c) == Or(c)
    ensures ws == [] ==> !WellTagged([PushedTag(ws, Some(AndJoin), c)])
  {
    var w := [PushedTag(ws, Some(AndJoin), c)];
    assert !w[0].First?;
  }

  /** `JoinQueryBuilder::new`: the join clause is `left operator right`. */
  function NewJoin(table: string, leftTable: string, operator: string, rightTable: string,
                   joinType: JoinType, selectColumns: Option<seq<string>>): (j: JoinSpec)
    ensures j.table == table && j.joinType == joinType && j.selectColumns == selectColumns
    ensures j.joinClause == leftTable + " " + operator + " " + rightTable
  {
    JoinSpec(table, leftTable + " " + operator + " " + rightTable, selectColumns, joinType)
  }

  /** A join being configured on its own; once added to a `QueryBuilder` it is
      moved into the builder's join list as a `JoinSpec` value. */
  class JoinQueryBuilder {
    var table: string
    var joinClause: string
    var selectColumns: Option<seq<string>>
    var joinType: JoinType

    function Spec(): JoinSpec
      reads this
    {
      JoinSpec(table, joinClause, selectColumns, joinType)
    }

    constructor (table: string, leftTable: string, operator: string, rightTable: string,
                 joinType: JoinType, selectColumns: Option<seq<string>>)
      ensures Spec() == NewJoin(table, leftTable, operator, rightTable, joinType, selectColumns)
    {
      this.table := table;
      this.joinClause := leftTable + " " + operator + " " + rightTable;
      this.joinType := joinType;
      this.selectColumns := selectColumns;
    }

    /** Allocates the select list on first use and appends one column. */
    method Select(column: string)
      modifies this`selectColumns
      ensures selectColumns == Some(old(selectColumns).GetOr([]) + [column])
    {
      if selectColumns.None? {
        selectColumns := Some([]);
      }
      selectColumns := Some(selectColumns.value + [column]);
    }

    /** Allocates the select list on first use and appends the columns in order. */
    method SelectMultiple(columns: seq<string>)
      modifies this`selectColumns
      ensures selectColumns == Some(old(selectColumns).GetOr([]) + columns)
    {
      if selectColumns.None? {
        selectColumns := Some([]);
      }
      selectColumns := Some(selectColumns.value + columns);
    }
  }

  class QueryBuilder {
    var whereClauses: seq<WhereJoinOperator>
    var tables: seq<string>
    var selectColumns: Option<seq<string>>
    var setColumns: Option<map<string, string>>
    var joins: Option<seq<JoinSpec>>

    /** The builder's contents, as handed to a generator or held by a sub-query. */
    function Snapshot(): Query
      reads this
    {
      Query(whereClauses, tables, selectColumns, setColumns, joins)
    }

    constructor (tables: seq<string>)
      ensures whereClauses == [] && this.tables == tables
      ensures selectColumns == None && setColumns == None && joins == None
    {
      whereClauses := [];
      this.tables := tables;
      selectColumns := None;
      setColumns := None;
      joins := None;
    }

    /** Allocates the set map on first use and maps `column` to `value`; the
        value arrives already converted with `to_string`. */
    method Set(column: string, value: string)
      modifies this`setColumns
      ensures setColumns == Some(old(setColumns).GetOr(map[])[column := value])
      ensures column in setColumns.value && setColumns.value[column] == value
      ensures forall k :: k in old(setColumns).GetOr(map[]) && k != column ==>
                k in setColumns.value && setColumns.value[k] == old(setColumns).GetOr(map[])[k]
    {
      if setColumns.None? {
        setColumns := Some(map[]);
      }
      setColumns := Some(setColumns.value[column := value]);
    }

    /** Allocates the set map on first use and inserts every entry, one at a
        time: each given column ends up with its given value, the other
        columns keep theirs. */
    method SetMultiple(columnAndValues: map<string, string>)
      modifies this`setColumns
      ensures setColumns == Some(old(setColumns).GetOr(map[]) + columnAndValues)
      ensures forall k :: k in columnAndValues ==>
                k in setColumns.value && setColumns.value[k] == columnAndValues[k]
      ensures forall k :: k in old(setColumns).GetOr(map[]) && k !in columnAndValues ==>
                k in setColumns.value && setColumns.value[k] == old(setColumns).GetOr(map[])[k]
    {
      if setColumns.None? {
        setColumns := Some(map[]);
      }
      ghost var start := setColumns.value;
      var pending := columnAndValues.Keys;
      while pending != {}
        invariant pending <= columnAndValues.Keys
        invariant setColumns.Some?
        invariant setColumns.value ==
                    start + map k | k in columnAndValues.Keys - pending :: columnAndValues[k]
        decreases pending
      {
        var k :| k in pending;
        setColumns := Some(setColumns.value[k := columnAndValues[k]]);
        pending := pending - {k};
      }
      assert columnAndValues.Keys - pending == columnAndValues.Keys;
      assert (map k | k in columnAndValues.Keys :: columnAndValues[k]) == columnAndValues;
    }

    /** Allocates the select list on first use and appends one column. */
    method Select(column: string)
      modifies this`selectColumns
      ensures selectColumns == Some(old(selectColumns).GetOr([]) + [column])
    {
      if selectColumns.None? {
        selectColumns := Some([]);
      }
      selectColumns := Some(selectColumns.value + [column]);
    }

    /** Allocates the select list on first use and appends the columns in order. */
    method SelectMultiple(columns: seq<string>)
      modifies this`selectColumns
      ensures selectColumns == Some(old(selectColumns).GetOr([]) + columns)
    {
      if selectColumns.None? {
        selectColumns := Some([]);
      }
      selectColumns := Some(selectColumns.value + columns);
    }

    /** Appends a tagged clause as given. */
    method Where(whereClause: WhereJoinOperator)
      modifies this`whereClauses
      ensures whereClauses == old(whereClauses) + [whereClause]
    {
      whereClauses := whereClauses + [whereClause];
    }

    /** The first condition goes in untagged; any later one through
        `and_where`, and so, as written, tagged `Or`. */
    method FirstOrAnd(condition: Condition)
      modifies this`whereClauses
      ensures whereClauses == old(whereClauses) + [PushedTag(old(whereClauses), None, condition)]
    {
      if whereClauses == [] {
        Where(First(condition));
      } else {
        AndWhere(condition);
      }
    }

    /** Builds the condition and routes it by the requested connective. */
    method WhereOperator(column: string, operator: Operator, value: Value, andOr: Option<WhereJoin>)
      modifies this`whereClauses
      ensures whereClauses == old(whereClauses) + [PushedTag(old(whereClauses), andOr, Condition(column, operator, value))]
    {
      var condition := Conditions.NewCondition(column, operator, value);
      match andOr
      case Some(AndJoin) => AndWhere(condition);
      case Some(OrJoin) => OrWhere(condition);
      case None => FirstOrAnd(condition);
    }

    method OrWhere(condition: Condition)
      modifies this`whereClauses
      ensures whereClauses == old(whereClauses) + [Or(condition)]
    {
      Where(Or(condition));
    }

    /** Despite its name, pushes an `Or`-tagged clause, as `or_where` does;
        `ClauseTag` is the tag its name promises. */
    method AndWhere(condition: Condition)
      modifies this`whereClauses
      ensures whereClauses == old(whereClauses) + [Or(condition)]
    {
      Where(Or(condition));
    }

    method Eq(column: string, value: Value)
      modifies this`whereClauses
      ensures whereClauses == old(whereClauses) + [PushedTag(old(whereClauses), None, Condition(column, Operator.Equal, value))]
    {
      WhereOperator(column, Operator.Equal, value, None);
    }

    method AndEq(column: string, value: Value)
      modifies this`whereClauses
      ensures whereClauses == old(whereClauses) + [PushedTag(old(whereClauses), Some(AndJoin), Condition(column, Operator.Equal, value))]
    {
      WhereOperator(column, Operator.Equal, value, Some(AndJoin));
    }

    method OrEq(column: string, value: Value)
      modifies this`whereClauses
      ensures whereClauses == old(whereClauses) + [PushedTag(old(whereClauses), Some(OrJoin), Condition(column, Operator.Equal, value))]
    {
      WhereOperator(column, Operator.Equal, value, Some(OrJoin));
    }

    method NotEq(column: string, value: Value)
      modifies this`whereClauses
      ensures whereClauses == old(whereClauses) + [PushedTag(old(whereClauses), None, Condition(column, Operator.NotEqual, value))]
    {
      WhereOperator(column, Operator.NotEqual, value, None);
    }

    method AndNotEq(column: string, value: Value)
      modifies this`whereClauses
      ensures whereClauses == old(whereClauses) + [PushedTag(old(whereClauses), Some(AndJoin), Condition(column, Operator.NotEqual, value))]
    {
      WhereOperator(column, Operator.NotEqual, value, Some(AndJoin));
    }

    method OrNotEq(column: string, value: Value)
      modifies this`whereClauses
      ensures whereClauses == old(whereClauses) + [PushedTag(old(whereClauses), Some(OrJoin), Condition(column, Operator.NotEqual, value))]
    {
      WhereOperator(column, Operator.NotEqual, value, Some(OrJoin));
    }

    method Gt(column: string, value: Value)
      modifies this`whereClauses
      ensures whereClauses == old(whereClauses) + [PushedTag(old(whereClauses), None, Condition(column, Operator.Greater, value))]
    {
      WhereOperator(column, Operator.Greater, value, None);
    }

    method AndGt(column: string, value: Value)
      modifies this`whereClauses
      ensures whereClauses == old(whereClauses) + [PushedTag(old(whereClauses), Some(AndJoin), Condition(column, Operator.Greater, value))]
    {
      WhereOperator(column, Operator.Greater, value, Some(AndJoin));
    }

    method OrGt(column: string, value: Value)
      modifies this`whereClauses
      ensures whereClauses == old(whereClauses) + [PushedTag(old(whereClauses), Some(OrJoin), Condition(column, Operator.Greater, value))]
    {
      WhereOperator(column, Operator.Greater, value, Some(OrJoin));
    }

    method Ngt(column: string, value: Value)
      modifies this`whereClauses
      ensures whereClauses == old(whereClauses) + [PushedTag(old(whereClauses), None, Condition(column, Operator.NotGreater, value))]
    {
      WhereOperator(column, Operator.NotGreater, value, None);
    }

    method AndNgt(column: string, value: Value)
      modifies this`whereClauses
      ensures whereClauses == old(whereClauses) + [PushedTag(old(whereClauses), Some(AndJoin), Condition(column, Operator.NotGreater, value))]
    {
      WhereOperator(column, Operator.NotGreater, value, Some(AndJoin));
    }

    method OrNgt(column: string, value: Value)
      modifies this`whereClauses
      ensures whereClauses == old(whereClauses) + [PushedTag(old(whereClauses), Some(OrJoin), Condition(column, Operator.NotGreater, value))]
    {
      WhereOperator(column, Operator.NotGreater, value, Some(OrJoin));
    }

    method GtOrEq(column: string, value: Value)
      modifies this`whereClauses
      ensures whereClauses == old(whereClauses) + [PushedTag(old(whereClauses), None, Condition(column, Operator.GreaterOrEqual, value))]
    {
      WhereOperator(column, Operator.GreaterOrEqual, value, None);
    }

    method AndGtOrEq(column: string, value: Value)
      modifies this`whereClauses
      ensures whereClauses == old(whereClauses) + [PushedTag(old(whereClauses), Some(AndJoin), Condition(column, Operator.GreaterOrEqual, value))]
    {
      WhereOperator(column, Operator.GreaterOrEqual, value, Some(AndJoin));
    }

    method OrGtOrEq(column: string, value: Value)
      modifies this`whereClauses
      ensures whereClauses == old(whereClauses) + [PushedTag(old(whereClauses), Some(OrJoin), Condition(column, Operator.GreaterOrEqual, value))]
    {
      WhereOperator(column, Operator.GreaterOrEqual, value, Some(OrJoin));
    }

    method NotGtOrEq(column: string, value: Value)
      modifies this`whereClauses
      ensures whereClauses == old(whereClauses) + [PushedTag(old(whereClauses), None, Condition(column, Operator.NotGreaterOrEqual, value))]
    {
      WhereOperator(column, Operator.NotGreaterOrEqual, value, None);
    }

    method AndNotGtOrEq(column: string, value: Value)
      modifies this`whereClauses
      ensures whereClauses == old(whereClauses) + [PushedTag(old(whereClauses), Some(AndJoin), Condition(column, Operator.NotGreaterOrEqual, value))]
    {
      WhereOperator(column, Operator.NotGreaterOrEqual, value, Some(AndJoin));
    }

    method OrNotGtOrEq(column: string, value: Value)
      modifies this`whereClauses
      ensures whereClauses == old(whereClauses) + [PushedTag(old(whereClauses), Some(OrJoin), Condition(column, Operator.NotGreaterOrEqual, value))]
    {
      WhereOperator(column, Operator.NotGreaterOrEqual, value, Some(OrJoin));
    }

    method Le(column: string, value: Value)
      modifies this`whereClauses
      ensures whereClauses == old(whereClauses) + [PushedTag(old(whereClauses), None, Condition(column, Operator.Less, value))]
    {
      WhereOperator(column, Operator.Less, value, None);
    }

    method AndLe(column: string, value: Value)
      modifies this`whereClauses
      ensures whereClauses == old(whereClauses) + [PushedTag(old(whereClauses), Some(AndJoin), Condition(column, Operator.Less, value))]
    {
      WhereOperator(column, Operator.Less, value, Some(AndJoin));
    }

    method OrLe(column: string, value: Value)
      modifies this`whereClauses
      ensures whereClauses == old(whereClauses) + [PushedTag(old(whereClauses), Some(OrJoin), Condition(column, Operator.Less, value))]
    {
      WhereOperator(column, Operator.Less, value, Some(OrJoin));
    }

    method LeOrEq(column: string, value: Value)
      modifies this`whereClauses
      ensures whereClauses == old(whereClauses) + [PushedTag(old(whereClauses), None, Condition(column, Operator.LessOrEqual, value))]
    {
      WhereOperator(column, Operator.LessOrEqual, value, None);
    }

    method AndLeOrEq(column: string, value: Value)
      modifies this`whereClauses
      ensures whereClauses == old(whereClauses) + [PushedTag(old(whereClauses), Some(AndJoin), Condition(column, Operator.LessOrEqual, value))]
    {
      WhereOperator(column, Operator.LessOrEqual, value, Some(AndJoin));
    }

    method OrLeOrEq(column: string, value: Value)
      modifies this`whereClauses
      ensures whereClauses == old(whereClauses) + [PushedTag(old(whereClauses), Some(OrJoin), Condition(column, Operator.LessOrEqual, value))]
    {
      WhereOperator(column, Operator.LessOrEqual, value, Some(OrJoin));
    }

    method NotLe(column: string, value: Value)
      modifies this`whereClauses
      ensures whereClauses == old(whereClauses) + [PushedTag(old(whereClauses), None, Condition(column, Operator.NotLess, value))]
    {
      WhereOperator(column, Operator.NotLess, value, None);
    }

    method AndNle(column: string, value: Value)
      modifies this`whereClauses
      ensures whereClauses == old(whereClauses) + [PushedTag(old(whereClauses), Some(AndJoin), Condition(column, Operator.NotLess, value))]
    {
      WhereOperator(column, Operator.NotLess, value, Some(AndJoin));
    }

    method OrNle(column: string, value: Value)
      modifies this`whereClauses
      ensures whereClauses == old(whereClauses) + [PushedTag(old(whereClauses), Some(OrJoin), Condition(column, Operator.NotLess, value))]
    {
      WhereOperator(column, Operator.NotLess, value, Some(OrJoin));
    }

    method NleOrEq(column: string, value: Value)
      modifies this`whereClauses
      ensures whereClauses == old(whereClauses) + [PushedTag(old(whereClauses), None, Condition(column, Operator.NotLessOrEqual, value))]
    {
      WhereOperator(column, Operator.NotLessOrEqual, value, None);
    }

    method AndNleOrEq(column: string, value: Value)
      modifies this`whereClauses
      ensures whereClauses == old(whereClauses) + [PushedTag(old(whereClauses), Some(AndJoin), Condition(column, Operator.NotLessOrEqual, value))]
    {
      WhereOperator(column, Operator.NotLessOrEqual, value, Some(AndJoin));
    }

    method OrNleOrEq(column: string, value: Value)
      modifies this`whereClauses
      ensures whereClauses == old(whereClauses) + [PushedTag(old(whereClauses), Some(OrJoin), Condition(column, Operator.NotLessOrEqual, value))]
    {
      WhereOperator(column, Operator.NotLessOrEqual, value, Some(OrJoin));
    }

    method Like(column: string, value: Value)
      modifies this`whereClauses
      ensures whereClauses == old(whereClauses) + [PushedTag(old(whereClauses), None, Condition(column, Operator.Like, value))]
    {
      WhereOperator(column, Operator.Like, value, None);
    }

    method AndLike(column: string, value: Value)
      modifies this`whereClauses
      ensures whereClauses == old(whereClauses) + [PushedTag(old(whereClauses), Some(AndJoin), Condition(column, Operator.Like, value))]
    {
      WhereOperator(column, Operator.Like, value, Some(AndJoin));
    }

    method OrLike(column: string, value: Value)
      modifies this`whereClauses
      ensures whereClauses == old(whereClauses) + [PushedTag(old(whereClauses), Some(OrJoin), Condition(column, Operator.Like, value))]
    {
      WhereOperator(column, Operator.Like, value, Some(OrJoin));
    }

    method Nlike(column: string, value: Value)
      modifies this`whereClauses
      ensures whereClauses == old(whereClauses) + [PushedTag(old(whereClauses), None, Condition(column, Operator.NotLike, value))]
    {
      WhereOperator(column, Operator.NotLike, value, None);
    }

    method AndNlike(column: string, value: Value)
      modifies this`whereClauses
      ensures whereClauses == old(whereClauses) + [PushedTag(old(whereClauses), Some(AndJoin), Condition(column, Operator.NotLike, value))]
    {
      WhereOperator(column, Operator.NotLike, value, Some(AndJoin));
    }

    method OrNlike(column: string, value: Value)
      modifies this`whereClauses
      ensures whereClauses == old(whereClauses) + [PushedTag(old(whereClauses), Some(OrJoin), Condition(column, Operator.NotLike, value))]
    {
      WhereOperator(column, Operator.NotLike, value, Some(OrJoin));
    }

    method IsNull(column: string)
      modifies this`whereClauses
      ensures whereClauses == old(whereClauses) + [PushedTag(old(whereClauses), None, Condition(column, Operator.Null, Value.Null))]
    {
      WhereOperator(column, Operator.Null, Value.Null, None);
    }

    method AndIsNull(column: string)
      modifies this`whereClauses
      ensures whereClauses == old(whereClauses) + [PushedTag(old(whereClauses), Some(AndJoin), Condition(column, Operator.Null, Value.Null))]
    {
      WhereOperator(column, Operator.Null, Value.Null, Some(AndJoin));
    }

    method OrIsNull(column: string)
      modifies this`whereClauses
      ensures whereClauses == old(whereClauses) + [PushedTag(old(whereClauses), Some(OrJoin), Condition(column, Operator.Null, Value.Null))]
    {
      WhereOperator(column, Operator.Null, Value.Null, Some(OrJoin));
    }

    method IsNotNull(column: string)
      modifies this`whereClauses
      ensures whereClauses == old(whereClauses) + [PushedTag(old(whereClauses), None, Condition(column, Operator.NotNull, Value.Null))]
    {
      WhereOperator(column, Operator.NotNull, Value.Null, None);
    }

    method AndIsNotNull(column: string)
      modifies this`whereClauses
      ensures whereClauses == old(whereClauses) + [PushedTag(old(whereClauses), Some(AndJoin), Condition(column, Operator.NotNull, Value.Null))]
    {
      WhereOperator(column, Operator.NotNull, Value.Null, Some(AndJoin));
    }

    method OrIsNotNull(column: string)
      modifies this`whereClauses
      ensures whereClauses == old(whereClauses) + [PushedTag(old(whereClauses), Some(OrJoin), Condition(column, Operator.NotNull, Value.Null))]
    {
      WhereOperator(column, Operator.NotNull, Value.Null, Some(OrJoin));
    }

    method IsIn(column: string, value: Value)
      modifies this`whereClauses
      ensures whereClauses == old(whereClauses) + [PushedTag(old(whereClauses), None, Condition(column, Operator.In, value))]
    {
      WhereOperator(column, Operator.In, value, None);
    }

    method AndIsIn(column: string, value: Value)
      modifies this`whereClauses
      ensures whereClauses == old(whereClauses) + [PushedTag(old(whereClauses), Some(AndJoin), Condition(column, Operator.In, value))]
    {
      WhereOperator(column, Operator.In, value, Some(AndJoin));
    }

    method OrIsIn(column: string, value: Value)
      modifies this`whereClauses
      ensures whereClauses == old(whereClauses) + [PushedTag(old(whereClauses), Some(OrJoin), Condition(column, Operator.In, value))]
    {
      WhereOperator(column, Operator.In, value, Some(OrJoin));
    }

    method IsNotIn(column: string, value: Value)
      modifies this`whereClauses
      ensures whereClauses == old(whereClauses) + [PushedTag(old(whereClauses), None, Condition(column, Operator.NotIn, value))]
    {
      WhereOperator(column, Operator.NotIn, value, None);
    }

    method AndIsNotIn(column: string, value: Value)
      modifies this`whereClauses
      ensures whereClauses == old(whereClauses) + [PushedTag(old(whereClauses), Some(AndJoin), Condition(column, Operator.NotIn, value))]
    {
      WhereOperator(column, Operator.NotIn, value, Some(AndJoin));
    }

    method OrIsNotIn(column: string, value: Value)
      modifies this`whereClauses
      ensures whereClauses == old(whereClauses) + [PushedTag(old(whereClauses), Some(OrJoin), Condition(column, Operator.NotIn, value))]
    {
      WhereOperator(column, Operator.NotIn, value, Some(OrJoin));
    }

    /** A `>=` condition, then an `and_` `<=` one; as written the second is
        tagged `Or`, so the pair reads `column >= first OR column <= last`
        (see `OrmMySql.BetweenRendersOr`). */
    method Between(column: string, first: Value, last: Value)
      modifies this`whereClauses
      ensures whereClauses == old(whereClauses) +
                [PushedTag(old(whereClauses), None, Condition(column, GreaterOrEqual, first)),
                 Or(Condition(column, LessOrEqual, last))]
    {
      GtOrEq(column, first);
      AndLeOrEq(column, last);
    }

    method AndBetween(column: string, first: Value, last: Value)
      modifies this`whereClauses
      ensures whereClauses == old(whereClauses) +
                [Or(Condition(column, GreaterOrEqual, first)), Or(Condition(column, LessOrEqual, last))]
    {
      AndGtOrEq(column, first);
      AndLeOrEq(column, last);
    }

    method OrBetween(column: string, first: Value, last: Value)
      modifies this`whereClauses
      ensures whereClauses == old(whereClauses) +
                [Or(Condition(column, GreaterOrEqual, first)), Or(Condition(column, LessOrEqual, last))]
    {
      OrGtOrEq(column, first);
      AndLeOrEq(column, last);
    }

    /** `NOT column >= first`, then an `and_` `NOT column <= last`, which
        as written is tagged `Or` too. */
    method NotBetween(column: string, first: Value, last: Value)
      modifies this`whereClauses
      ensures whereClauses == old(whereClauses) +
                [PushedTag(old(whereClauses), None, Condition(column, NotGreaterOrEqual, first)),
                 Or(Condition(column, NotLessOrEqual, last))]
    {
      NotGtOrEq(column, first);
      AndNleOrEq(column, last);
    }

    method AndNotBetween(column: string, first: Value, last: Value)
      modifies this`whereClauses
      ensures whereClauses == old(whereClauses) +
                [Or(Condition(column, NotGreaterOrEqual, first)), Or(Condition(column, NotLessOrEqual, last))]
    {
      AndNotGtOrEq(column, first);
      AndNleOrEq(column, last);
    }

    method OrNotBetween(column: string, first: Value, last: Value)
      modifies this`whereClauses
      ensures whereClauses == old(whereClauses) +
                [Or(Condition(column, NotGreaterOrEqual, first)), Or(Condition(column, NotLessOrEqual, last))]
    {
      OrNotGtOrEq(column, first);
      AndNleOrEq(column, last);
    }

    /** Allocates the join list on first use and appends one join. */
    method Join(table: string, leftTable: string, operator: string, rightTable: string,
                joinType: JoinType, selectColumns: Option<seq<string>>)
      modifies this`joins
      ensures joins == Some(old(joins).GetOr([]) +
                            [NewJoin(table, leftTable, operator, rightTable, joinType, selectColumns)])
    {
      if joins.None? {
        joins := Some([]);
      }
      var join := NewJoin(table, leftTable, operator, rightTable, joinType, selectColumns);
      joins := Some(joins.value + [join]);
    }

    /** A left join that selects every column of the joined table. */
    method LeftJoin(table: string, leftTable: string, operator: string, rightTable: string)
      modifies this`joins
      ensures joins == Some(old(joins).GetOr([]) +
                            [NewJoin(table, leftTable, operator, rightTable, Left, None)])
    {
      Join(table, leftTable, operator, rightTable, Left, None);
    }

    /** A left join that selects the given columns. */
    method LeftJoinAndSelect(table: string, leftTable: string, operator: string, rightTable: string,
                             selectColumns: seq<string>)
      modifies this`joins
      ensures joins == Some(old(joins).GetOr([]) +
                            [NewJoin(table, leftTable, operator, rightTable, Left, Some(selectColumns))])
    {
      Join(table, leftTable, operator, rightTable, Left, Some(selectColumns));
    }
  }
}
