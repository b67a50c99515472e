/**
 * The query generator of the `dirtybase_db` MySQL schema manager: it turns
 * a builder's contents into a SELECT statement and the list of parameters
 * to bind, and remembers the pair as the active query.
 *
 * How each operator, connective and value is spelled is decided by
 * `Operator::as_clause`, `WhereJoinOperator::as_clause` and
 * `Value::to_param`, which are not part of this model: the schema manager
 * holds them as given functions, and everything proved here holds whatever
 * they are.
 */
module DbMySql {
  import opened Wrappers
  import opened Text
  import opened QueryTypes
  import opened JoinTypes
  import opened SqlGen
  import QueryBuilders

  /** `t.*` for each table. */
  function Stars(tables: seq<string>): (r: seq<string>)
    ensures |r| == |tables|
    ensures forall i :: 0 <= i < |tables| ==> r[i] == tables[i] + ".*"
  {
    seq(|tables|, i requires 0 <= i < |tables| => tables[i] + ".*")
  }

  /** The field list when no columns were selected, as the table loop builds
      it: ` t.*` for the first table and `, t.*` for each later one. */
  function TableStars(tables: seq<string>): string {
    if tables == [] then ""
    else if |tables| == 1 then " " + tables[0] + ".*"
    else TableStars(tables[..|tables| - 1]) + ", " + tables[|tables| - 1] + ".*"
  }

  /** The table loop lists every table as `t.*`, in order, separated by
      `, ` and preceded by one space. */
  lemma {:induction false} TableStarsIsJoin(tables: seq<string>)
    ensures TableStars(tables) == if tables == [] then "" else " " + Join(Stars(tables), ", ")
  {
    if |tables| > 1 {
      var init := tables[..|tables| - 1];
      TableStarsIsJoin(init);
      assert Stars(tables) == Stars(init) + [tables[|tables| - 1] + ".*"];
      JoinSnoc(Stars(init), tables[|tables| - 1] + ".*", ", ");
    }
  }

  /** The fields selected from the main tables. */
  function FieldList(q: Query): string {
    match q.selectColumns
    case Some(fields) => " " + Join(fields, ",")
    case None => TableStars(q.tables)
  }

  /** The fields a join adds: its own columns, or all of its table. */
  function JoinFieldText(j: JoinSpec): string {
    match j.selectColumns
    case Some(columns) => ", " + Join(columns, ",")
    case None => ", " + j.table + ".*"
  }

  /** The JOIN clause of one join. */
  function JoinClauseText(j: JoinSpec): string {
    " " + Display(j.joinType) + " join " + j.table + " on " + j.joinClause
  }

  /** The SELECT statement generated for a query. */
  function SelectSql(d: Dialect, q: Query): string {
    "SELECT" + FieldList(q) + ConcatMap(JoinFieldText, q.JoinList())
    + " FROM " + Join(q.tables, ",") + ConcatMap(JoinClauseText, q.JoinList())
    + " " + WhereSql(d, q)
  }

  /** A query with no selected columns, joins or conditions selects every
      column of each table, in order, and ends with a single space. */
  lemma SelectAllTables(d: Dialect, tables: seq<string>)
    requires tables != []
    ensures SelectSql(d, Query([], tables, None, None, None))
            == "SELECT " + Join(Stars(tables), ", ") + " FROM " + Join(tables, ",") + " "
  {
    var q := Query([], tables, None, None, None);
    TableStarsIsJoin(tables);
    assert WhereBody(d, q, 0) == "";
    var fields, from := " " + Join(Stars(tables), ", "), " FROM " + Join(tables, ",");
    assert SelectSql(d, q) == "SELECT" + fields + "" + from + "" + " " + "";
  }

  /** A join added by `left_join` selects all of its table and renders as a
      left join on `left op right`. */
  lemma LeftJoinText(table: string, leftTable: string, operator: string, rightTable: string)
    ensures var j := QueryBuilders.NewJoin(table, leftTable, operator, rightTable, Left, None);
            JoinFieldText(j) == ", " + table + ".*"
            && JoinClauseText(j) == " left join " + table + " on " + leftTable + " " + operator + " " + rightTable
  {
  }

  /** Each join contributes its fields and its JOIN clause after those of the
      joins before it. */
  lemma JoinsInOrder(js: seq<JoinSpec>, j: JoinSpec)
    ensures ConcatMap(JoinFieldText, js + [j]) == ConcatMap(JoinFieldText, js) + JoinFieldText(j)
    ensures ConcatMap(JoinClauseText, js + [j]) == ConcatMap(JoinClauseText, js) + JoinClauseText(j)
  {
    ConcatMapAppend(JoinFieldText, js, [j]);
    ConcatMapSingle(JoinFieldText, j);
    ConcatMapAppend(JoinClauseText, js, [j]);
    ConcatMapSingle(JoinClauseText, j);
  }

  /** A generated statement and the parameters to bind to it. */
  datatype ActiveQuery = ActiveQuery(statement: string, params: seq<string>)

  class MySqlSchemaManager {
    /** `Operator::as_clause(column, placeholder)`. */
    const operatorClause: (Operator, string, string) -> string
    /** `WhereJoinOperator::as_clause(wheres, condition)`. */
    const whereJoinClause: (WhereJoinOperator, string, string) -> string
    /** `Value::to_param`: what a non-sub-query value pushes. */
    const toParam: Value -> seq<string>
    var activeQuery: Option<ActiveQuery>

    /** This generator's spellings, with the IN-list length it computes. */
    function DbDialect(): Dialect {
      Dialect(operatorClause, whereJoinClause, toParam, InLength)
    }

    constructor(operatorClause: (Operator, string, string) -> string,
                whereJoinClause: (WhereJoinOperator, string, string) -> string,
                toParam: Value -> seq<string>)
      ensures this.operatorClause == operatorClause && this.whereJoinClause == whereJoinClause
      ensures this.toParam == toParam
      ensures activeQuery == None
    {
      this.operatorClause := operatorClause;
      this.whereJoinClause := whereJoinClause;
      this.toParam := toParam;
      activeQuery := None;
    }

    /** `query`: generates the statement and its parameters, starting from
        an empty parameter list, and makes them the active query. */
    method Query(q: QueryTypes.Query)
      modifies this`activeQuery
      ensures activeQuery == Some(ActiveQuery(SelectSql(DbDialect(), q), QueryParams(DbDialect(), q)))
    {
      var statement, params := BuildQuery(q, []);
      assert params == QueryParams(DbDialect(), q);
      activeQuery := Some(ActiveQuery(statement, params));
    }

    /** `build_query`: the SELECT statement of `q`; appends the parameters
        of its where-clauses to `params`. */
    method BuildQuery(q: QueryTypes.Query, params: seq<string>) returns (sql: string, params': seq<string>)
      ensures sql == SelectSql(DbDialect(), q)
      ensures params' == params + QueryParams(DbDialect(), q)
      decreases q, 2
    {
      sql := "SELECT";
      sql := PushFields(sql, q);
      sql := PushJoinFields(sql, q.JoinList());
      sql := sql + " FROM " + Join(q.tables, ",");
      sql := PushJoinClauses(sql, q.JoinList());
      var wheres;
      wheres, params' := BuildWhereClauses(q, params);
      sql := sql + " " + wheres;
    }

    /** The field step of `build_query`: the selected columns, or `t.*` for
        each table. */
    static method PushFields(sql: string, q: QueryTypes.Query) returns (r: string)
      ensures r == sql + FieldList(q)
    {
      r := sql;
      match q.selectColumns {
        case Some(fields) =>
          r := r + " " + Join(fields, ",");
        case None =>
          for i := 0 to |q.tables|
            invariant r == sql + TableStars(q.tables[..i])
          {
            assert q.tables[..i + 1][..i] == q.tables[..i];
            if i == 0 {
              r := r + " " + q.tables[i] + ".*";
            } else {
              r := r + ", " + q.tables[i] + ".*";
            }
          }
          assert q.tables[..|q.tables|] == q.tables;
      }
    }

    /** The join-field step of `build_query`: each join's columns, or all of
        its table. */
    static method PushJoinFields(sql: string, joins: seq<JoinSpec>) returns (r: string)
      ensures r == sql + ConcatMap(JoinFieldText, joins)
    {
      r := sql;
      for i := 0 to |joins|
        invariant r == sql + ConcatMap(JoinFieldText, joins[..i])
      {
        ConcatMapStep(JoinFieldText, joins, i);
        match joins[i].selectColumns {
          case Some(columns) => r := r + ", " + Join(columns, ",");
          case None => r := r + ", " + joins[i].table + ".*";
        }
      }
      assert joins[..|joins|] == joins;
    }

    /** The join step of `build_query`: one `<kind> join <table> on
        <clause>` per join, in order. */
    static method PushJoinClauses(sql: string, joins: seq<JoinSpec>) returns (r: string)
      ensures r == sql + ConcatMap(JoinClauseText, joins)
    {
      r := sql;
      for i := 0 to |joins|
        invariant r == sql + ConcatMap(JoinClauseText, joins[..i])
      {
        var clause := " " + Display(joins[i].joinType) + " join " + joins[i].table + " on " + joins[i].joinClause;
        AppendJoinClause(sql, joins, i, r, clause);
        r := r + clause;
      }
      assert joins[..|joins|] == joins;
    }

    /** Appending the text of join `i` extends the rendered prefix. */
    static lemma AppendJoinClause(sql: string, joins: seq<JoinSpec>, i: nat, r: string, clause: string)
      requires i < |joins|
      requires r == sql + ConcatMap(JoinClauseText, joins[..i])
      requires clause == " " + Display(joins[i].joinType) + " join " + joins[i].table + " on " + joins[i].joinClause
      ensures r + clause == sql + ConcatMap(JoinClauseText, joins[..i + 1])
    {
      ConcatMapStep(JoinClauseText, joins, i);
      assert clause == JoinClauseText(joins[i]);
      SeqAssoc(sql, ConcatMap(JoinClauseText, joins[..i]), clause);
    }

    /** `build_where_clauses`: folds the where-clauses in order, each
        condition's parameters pushed before its text is joined on. */
    method BuildWhereClauses(q: QueryTypes.Query, params: seq<string>) returns (wheres: string, params': seq<string>)
      ensures wheres == WhereSql(DbDialect(), q)
      ensures params' == params + QueryParams(DbDialect(), q)
      decreases q, 1
    {
      wheres := "";
      params' := params;
      for i := 0 to |q.whereClauses|
        invariant wheres == WhereBody(DbDialect(), q, i)
        invariant params' == params + WhereParams(DbDialect(), q, i)
      {
        var whereJoin := q.whereClauses[i];
        var condition, params'' := TransformCondition(whereJoin.condition, params');
        var wheres' := whereJoinClause(whereJoin, wheres, condition);
        FoldStep(DbDialect(), q, i, params, wheres, wheres', params', params'');
        wheres, params' := wheres', params'';
      }

      if wheres != "" {
        wheres := "WHERE " + wheres;
      }
    }

    /** `transform_condition`: pushes the value's parameters, then renders
        the condition with one `?` per IN element. */
    method TransformCondition(condition: Condition, params: seq<string>) returns (sql: string, params': seq<string>)
      ensures sql == ConditionSql(DbDialect(), condition)
      ensures params' == params + ValueParams(DbDialect(), condition.value)
      decreases condition
    {
      params' := TransformValue(condition.value, params);

      var placeholder;
      if condition.operator == In || condition.operator == NotIn {
        var length := match condition.value
          case I64s(v) => |v|
          case U64s(v) => |v|
          case Strings(v) => |v|
          case _ => 1;
        var marks: seq<string> := [];
        marks := Repeat("?", length);
        placeholder := Join(marks, ",");
      } else {
        placeholder := "?";
      }

      sql := operatorClause(condition.operator, condition.column, placeholder);
    }

    /** `transform_value`: a sub-query's parameters are pushed (its SQL text
        is thrown away); any other value pushes what `to_param` gives. */
    method TransformValue(value: Value, params: seq<string>) returns (params': seq<string>)
      ensures params' == params + ValueParams(DbDialect(), value)
      decreases value
    {
      match value {
        case SubQuery(q) =>
          var _, p := BuildQuery(q, params);
          params' := p;
        case _ =>
          params' := params + toParam(value);
      }
    }
  }
}
