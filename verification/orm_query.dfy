/**
 * The query builder of the `dirtybase_orm` crate, at the stage it has
 * reached: a builder holds target tables, an optional select list, an
 * optional list of columns to set, and an ordered list of tagged
 * where-clauses, and its one fluent call, `where_`, appends a clause in
 * place. Its vocabulary (nine operators, six connective tags, five value
 * kinds) is its own, smaller than the one the generators consume.
 */
module OrmQuery {
  import opened Wrappers

  datatype Operator =
    | Equal
    | Greater
    | GreaterOrEqual
    | Less
    | LessOrEqual
    | Like
    | IsNull
    | In
    | Between

  /** The kinds of statement the builder is meant to produce. */
  datatype Action = Insert | Update | Delete | SelectAll | SelectOne

  /** A value to compare with; an `f64` is carried as its text. */
  datatype Value =
    | Null
    | Number(number: string)
    | Numbers(numbers: seq<string>)
    | Text(text: string)
    | Texts(texts: seq<string>)

  datatype Condition = Condition(column: string, operator: Operator, value: Value)

  /** A condition and the connective that joins it to the ones before it;
      `First` is the source's `None`. */
  datatype WhereJoinOperator =
    | First(condition: Condition)
    | And(condition: Condition)
    | Or(condition: Condition)
    | Not(condition: Condition)
    | AndNot(condition: Condition)
    | OrNot(condition: Condition)

  /** A builder's contents, as handed to the schema manager. */
  datatype QuerySnapshot = QuerySnapshot(
    whereClauses: seq<WhereJoinOperator>,
    tables: seq<string>,
    selectColumns: Option<seq<string>>,
    setColumns: Option<seq<string>>)

  /** What a fresh builder over `tables` holds after `clauses` were added
      with `where_`, in that order. */
  function Built(tables: seq<string>, clauses: seq<WhereJoinOperator>): (q: QuerySnapshot)
    ensures q.tables == tables && q.whereClauses == clauses
    ensures q.selectColumns == None && q.setColumns == None
  {
    QuerySnapshot(clauses, tables, None, None)
  }

  class QueryBuilder {
    var whereClauses: seq<WhereJoinOperator>
    var tables: seq<string>
    var selectColumns: Option<seq<string>>
    var setColumns: Option<seq<string>>

    function Snapshot(): QuerySnapshot
      reads this
    {
      QuerySnapshot(whereClauses, tables, selectColumns, setColumns)
    }

    /** `new`: the given tables, no clauses, nothing selected or set. */
    constructor (tables: seq<string>)
      ensures Snapshot() == Built(tables, [])
    {
      whereClauses := [];
      this.tables := tables;
      selectColumns := None;
      setColumns := None;
    }

    /** `where_`: appends the clause after those already added; nothing
        else changes. */
    method Where(whereClause: WhereJoinOperator)
      modifies this`whereClauses
      ensures whereClauses == old(whereClauses) + [whereClause]
    {
      whereClauses := whereClauses + [whereClause];
    }
  }
}
