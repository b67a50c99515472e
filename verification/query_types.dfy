/**
 * The vocabulary shared by the query builder and both MySQL generators:
 * operators, bindable values, conditions, the where-clause join tags,
 * join specifications, and `Query`, the value a `QueryBuilder` holds
 * when it is handed to a generator.
 */
module QueryTypes {
  import opened Wrappers

  type Uint64 = x: int | 0 <= x < 0x1_0000_0000_0000_0000
  type Int64 = x: int | -0x8000_0000_0000_0000 <= x < 0x8000_0000_0000_0000

  /** The comparison of one condition. */
  datatype Operator =
    | Equal | NotEqual
    | Greater | NotGreater
    | GreaterOrEqual | NotGreaterOrEqual
    | Less | LessOrEqual
    | NotLess | NotLessOrEqual
    | Like | NotLike
    | Null | NotNull
    | In | NotIn

  /** A bindable value. Floating-point numbers are carried as the text that
      Rust's `to_string` would give them. A sub-query holds the builder's
      contents. */
  datatype Value =
    | Null
    | U64(u: Uint64)
    | I64(i: Int64)
    | F64(f: string)
    | String(s: string)
    | Boolean(b: bool)
    | U64s(us: seq<Uint64>)
    | I64s(ins: seq<Int64>)
    | F64s(fs: seq<string>)
    | Strings(ss: seq<string>)
    | SubQuery(query: Query)

  /** One predicate: column, operator, value. */
  datatype Condition = Condition(column: string, operator: Operator, value: Value)

  /** A condition tagged with how it joins the ones before it. `First` is the
      source's `WhereJoinOperator::None`: no preceding connective. */
  datatype WhereJoinOperator =
    | First(condition: Condition)
    | And(condition: Condition)
    | Or(condition: Condition)

  /** The connective a caller asks for (`and_*` or `or_*` entry points). */
  datatype WhereJoin = AndJoin | OrJoin

  datatype JoinType = Inner | Left | Right

  /** A `JoinQueryBuilder` as stored in a builder's join list. */
  datatype JoinSpec = JoinSpec(
    table: string,
    joinClause: string,
    selectColumns: Option<seq<string>>,
    joinType: JoinType)

  /** The contents of a `QueryBuilder`. */
  datatype Query = Query(
    whereClauses: seq<WhereJoinOperator>,
    tables: seq<string>,
    selectColumns: Option<seq<string>>,
    setColumns: Option<map<string, string>>,
    joins: Option<seq<JoinSpec>>)
  {
    /** The joins, or none when the list was never allocated. */
    function JoinList(): seq<JoinSpec> {
      joins.GetOr([])
    }
  }
}
