/**
 * The query generator of the `dirtybase_orm` MySQL schema manager. Unlike
 * the `dirtybase_db` one it spells everything out itself: a fixed fragment
 * per operator, the AND / OR connectives, and the text each value binds as
 * parameters. It renders no joins and selects `*` when no columns were
 * selected.
 *
 * The property that matters is that the statement has as many `?`
 * placeholders as parameters are bound, clause by clause. As written it
 * fails for IN over a `U64s` list (several placeholders, a single
 * parameter) and over an `F64s` list (one placeholder, several
 * parameters). The methods implement `AsWrittenDialect`, the code as
 * written, for which the property is proved exactly for the well-formed
 * conditions without those lists; `OrmDialect` is the generator with both
 * repaired, for which it is proved for every well-formed condition. A
 * sub-query condition (not well formed) renders one `?` and binds all the
 * sub-query's parameters, in both.
 */
module OrmMySql {
  import opened Wrappers
  import opened Text
  import opened QueryTypes
  import opened SqlGen

  /** The SQL fragment of each operator; `ph` is the IN placeholder list. */
  function OperatorClause(op: Operator, column: string, ph: string): string {
    match op
    case Equal => column + " = ?"
    case NotEqual => column + " <> ?"
    case Greater => column + " > ?"
    case NotGreater => "NOT " + column + " > ?"
    case GreaterOrEqual => column + " >= ?"
    case NotGreaterOrEqual => "NOT " + column + " >= ?"
    case Less => column + " < ?"
    case NotLess => "NOT " + column + " < ?"
    case LessOrEqual => column + " <= ?"
    case NotLessOrEqual => "NOT " + column + " <= ?"
    case Like => column + " like ?"
    case NotLike => "NOT " + column + " like ?"
    case Null => column + " IS NULL"
    case NotNull => column + " IS NOT NULL"
    case In => column + " IN (" + ph + ")"
    case NotIn => column + " NOT IN (" + ph + ")"
  }

  /** How a clause is folded into the text so far: `AND` / `OR` only when
      something was already emitted. */
  function WhereJoinClause(w: WhereJoinOperator, wheres: string, condition: string): string {
    match w
    case And(_) => if wheres != "" then wheres + " AND " + condition + " " else wheres + " " + condition + " "
    case Or(_) => if wheres != "" then wheres + " OR " + condition + " " else wheres + " " + condition + " "
    case First(_) => wheres + " " + condition + " "
  }

  function Quoted(s: string): string {
    "'" + s + "'"
  }

  /** Each number's decimal text. */
  function NatsText(us: seq<Uint64>): (r: seq<string>)
    ensures |r| == |us|
  {
    seq(|us|, k requires 0 <= k < |us| => NatToString(us[k]))
  }

  /** Each number's decimal text, with a `-` when negative. */
  function IntsText(ins: seq<Int64>): (r: seq<string>)
    ensures |r| == |ins|
  {
    seq(|ins|, k requires 0 <= k < |ins| => IntToString(ins[k]))
  }

  /** Each string in single quotes. */
  function QuotedAll(ss: seq<string>): (r: seq<string>)
    ensures |r| == |ss|
  {
    seq(|ss|, k requires 0 <= k < |ss| => Quoted(ss[k]))
  }

  /** The parameters a value binds, as written: a `U64s` list binds one
      parenthesised parameter whatever its length. */
  function ToParamAsWritten(v: Value): seq<string> {
    match v
    case Null => []
    case U64(u) => [NatToString(u)]
    case I64(i) => [IntToString(i)]
    case F64(f) => [f]
    case String(s) => [Quoted(s)]
    case Boolean(b) => [if b then "1" else "0"]
    case U64s(us) => ["(" + Join(NatsText(us), ",") + ")"]
    case I64s(ins) => IntsText(ins)
    case F64s(fs) => fs
    case Strings(ss) => QuotedAll(ss)
    case SubQuery(_) => []
  }

  /** This generator's spellings as written: the IN list of an `F64s`
      value gets a single placeholder. The methods below implement it. */
  function AsWrittenDialect(): Dialect {
    Dialect(OperatorClause, WhereJoinClause, ToParamAsWritten, InLength)
  }

  /** The repaired serialisation: a `U64s` list binds one parameter per
      element, like the other lists. */
  function ToParam(v: Value): seq<string> {
    match v
    case U64s(us) => NatsText(us)
    case _ => ToParamAsWritten(v)
  }

  /** The repaired IN-list length: an `F64s` list counts its elements too. */
  function OrmInLength(v: Value): nat {
    match v
    case F64s(fs) => |fs|
    case _ => InLength(v)
  }

  /** This generator's spellings with both repairs. */
  function OrmDialect(): Dialect {
    Dialect(OperatorClause, WhereJoinClause, ToParam, OrmInLength)
  }

  /** The selected fields: the select list, or `*`. */
  function OrmFieldList(q: Query): string {
    match q.selectColumns
    case Some(fields) => " " + Join(fields, ",")
    case None => " *"
  }

  /** The SELECT statement generated for a query. */
  function OrmSelectSql(q: Query): string {
    "SELECT" + OrmFieldList(q) + " FROM " + Join(q.tables, ",") + " " + WhereSql(AsWrittenDialect(), q)
  }

  // ---------------------------------------------------------------------
  // The generator

  /** `build_query`: the SELECT statement of `q`; appends the parameters
      of its where-clauses to `params`. */
  method BuildQuery(q: Query, params: seq<string>) returns (sql: string, params': seq<string>)
    ensures sql == OrmSelectSql(q)
    ensures params' == params + QueryParams(AsWrittenDialect(), q)
    decreases q, 3
  {
    var fields;
    match q.selectColumns {
      case Some(columns) => fields := " " + Join(columns, ",");
      case None => fields := " *";
    }
    sql := "SELECT" + fields;
    sql := sql + " FROM " + Join(q.tables, ",");
    var wheres;
    wheres, params' := BuildWhereClauses(q, params);
    sql := sql + " " + wheres;
  }

  /** `build_where_clauses`: folds the where-clauses in order, then
      prefixes `WHERE ` when anything was emitted. */
  method BuildWhereClauses(q: Query, params: seq<string>) returns (wheres: string, params': seq<string>)
    ensures wheres == WhereSql(AsWrittenDialect(), q)
    ensures params' == params + QueryParams(AsWrittenDialect(), q)
    ensures (forall i :: 0 <= i < |q.whereClauses| ==>
               WellFormed(q.whereClauses[i].condition) && !Misaligned(q.whereClauses[i].condition.value))
            ==> Holes(wheres) == |params'| - |params|
    decreases q, 2
  {
    wheres, params' := FoldWhereClauses(q, params);
    WhereSqlIsWrappedBody(AsWrittenDialect(), q, wheres);
    if wheres != "" {
      wheres := "WHERE " + wheres;
    }
    if forall i :: 0 <= i < |q.whereClauses| ==>
         WellFormed(q.whereClauses[i].condition) && !Misaligned(q.whereClauses[i].condition.value) {
      QueryAlignedAsWritten(q);
    }
  }

  /** The loop of `build_where_clauses`. */
  method FoldWhereClauses(q: Query, params: seq<string>) returns (wheres: string, params': seq<string>)
    ensures wheres == WhereBody(AsWrittenDialect(), q, |q.whereClauses|)
    ensures params' == params + WhereParams(AsWrittenDialect(), q, |q.whereClauses|)
    decreases q, 1
  {
    wheres := "";
    params' := params;
    for i := 0 to |q.whereClauses|
      invariant wheres == WhereBody(AsWrittenDialect(), q, i)
      invariant params' == params + WhereParams(AsWrittenDialect(), q, i)
    {
      var wheres', params'' := FoldClause(q, i, wheres, params');
      FoldStep(AsWrittenDialect(), q, i, params, wheres, wheres', params', params'');
      wheres, params' := wheres', params'';
    }
  }

  /** One pass of the `build_where_clauses` loop over clause `i`: `AND` /
      `OR` only when something was already emitted. */
  method FoldClause(q: Query, i: nat, wheres: string, params: seq<string>)
    returns (wheres': string, params': seq<string>)
    requires i < |q.whereClauses|
    ensures wheres' == WhereJoinClause(q.whereClauses[i], wheres, ConditionSql(AsWrittenDialect(), q.whereClauses[i].condition))
    ensures params' == params + ValueParams(AsWrittenDialect(), q.whereClauses[i].condition.value)
    decreases q, 0
  {
    var whereJoin := q.whereClauses[i];
    var condition;
    if whereJoin.And? && wheres != "" {
      condition, params' := TransformCondition(whereJoin.condition, params);
      wheres' := wheres + " AND " + condition + " ";
    } else if whereJoin.Or? && wheres != "" {
      condition, params' := TransformCondition(whereJoin.condition, params);
      wheres' := wheres + " OR " + condition + " ";
    } else {
      condition, params' := TransformCondition(whereJoin.condition, params);
      wheres' := wheres + " " + condition + " ";
    }
  }

  /** `transform_condition`: pushes the value's parameters, then renders the
      operator's fragment. */
  method TransformCondition(condition: Condition, params: seq<string>) returns (sql: string, params': seq<string>)
    ensures sql == ConditionSql(AsWrittenDialect(), condition)
    ensures params' == params + ValueParams(AsWrittenDialect(), condition.value)
    decreases condition
  {
    params' := TransformValue(condition.value, params);
    var column := condition.column;
    match condition.operator {
      case Equal => sql := column + " = ?";
      case NotEqual => sql := column + " <> ?";
      case Greater => sql := column + " > ?";
      case NotGreater => sql := "NOT " + column + " > ?";
      case GreaterOrEqual => sql := column + " >= ?";
      case NotGreaterOrEqual => sql := "NOT " + column + " >= ?";
      case Less => sql := column + " < ?";
      case NotLess => sql := "NOT " + column + " < ?";
      case LessOrEqual => sql := column + " <= ?";
      case NotLessOrEqual => sql := "NOT " + column + " <= ?";
      case Like => sql := column + " like ?";
      case NotLike => sql := "NOT " + column + " like ?";
      case Null => sql := column + " IS NULL";
      case NotNull => sql := column + " IS NOT NULL";
      case _ =>
        var placeholder := InPlaceholder(condition.value);
        if condition.operator == In {
          sql := column + " IN (" + placeholder + ")";
        } else {
          sql := column + " NOT IN (" + placeholder + ")";
        }
    }
  }

  /** The IN / NOT IN placeholder of `transform_condition`: one `?` per
      element of an `I64s`, `U64s` or `Strings` list, one otherwise (an
      `F64s` list included), comma-separated. */
  method InPlaceholder(value: Value) returns (placeholder: string)
    ensures placeholder == Placeholders(InLength(value))
  {
    var length := match value
      case I64s(v) => |v|
      case U64s(v) => |v|
      case Strings(v) => |v|
      case _ => 1;
    var marks: seq<string> := [];
    for k := 0 to length
      invariant marks == Repeat("?", k)
    {
      marks := marks + ["?"];
    }
    placeholder := Join(marks, ",");
  }

  /** `transform_value`: appends the value's parameters; a sub-query
      appends those of its where-clauses and its SQL text is thrown away. */
  method TransformValue(value: Value, params: seq<string>) returns (params': seq<string>)
    ensures params' == params + ValueParams(AsWrittenDialect(), value)
    decreases value
  {
    match value {
      case Null => params' := params;
      case U64(v) => params' := params + [NatToString(v)];
      case I64(v) => params' := params + [IntToString(v)];
      case F64(v) => params' := params + [v];
      case String(v) => params' := params + [Quoted(v)];
      case Boolean(v) => params' := params + [if v then "1" else "0"];
      case U64s(v) => params' := params + ["(" + Join(NatsText(v), ",") + ")"];
      case I64s(v) => params' := params + IntsText(v);
      case F64s(v) => params' := params + v;
      case Strings(v) => params' := params + QuotedAll(v);
      case SubQuery(q) =>
        var _, p := BuildQuery(q, params);
        params' := p;
    }
  }

  // ---------------------------------------------------------------------
  // Shape of the output

  /** Folding at least one clause always leaves some text. */
  lemma WhereBodyNonEmpty(q: Query, n: nat)
    requires 1 <= n <= |q.whereClauses|
    ensures WhereBody(AsWrittenDialect(), q, n) != ""
  {
    var s := WhereBody(AsWrittenDialect(), q, n);
    assert s[|s| - 1] == ' ';
  }

  /** No clauses give no WHERE text; any clause gives text starting with
      `WHERE `. */
  lemma WhereSqlEmptyIff(q: Query)
    ensures WhereSql(AsWrittenDialect(), q) == "" <==> q.whereClauses == []
    ensures q.whereClauses != [] ==> WhereSql(AsWrittenDialect(), q)[..6] == "WHERE "
  {
    if q.whereClauses != [] {
      WhereBodyNonEmpty(q, |q.whereClauses|);
    }
  }

  /** The connective a clause gets once something was emitted. */
  function Connective(w: WhereJoinOperator): string {
    match w
    case First(_) => " "
    case And(_) => " AND "
    case Or(_) => " OR "
  }

  /** The first clause never has a connective, whatever its tag; each later
      clause is preceded by the connective of its tag. */
  lemma Connectives(q: Query, n: nat)
    requires 1 <= n <= |q.whereClauses|
    ensures var w := q.whereClauses[n - 1];
            WhereBody(AsWrittenDialect(), q, n)
            == WhereBody(AsWrittenDialect(), q, n - 1)
               + (if n == 1 then " " else Connective(w))
               + ConditionSql(AsWrittenDialect(), w.condition) + " "
  {
    if n > 1 {
      WhereBodyNonEmpty(q, n - 1);
    }
  }

  /** Each negated ordering or LIKE operator is `NOT ` followed by its
      positive form; `NotEqual` is spelled `<>` instead. */
  lemma NegatedForms(column: string, ph: string)
    ensures OperatorClause(NotGreater, column, ph) == "NOT " + OperatorClause(Greater, column, ph)
    ensures OperatorClause(NotGreaterOrEqual, column, ph) == "NOT " + OperatorClause(GreaterOrEqual, column, ph)
    ensures OperatorClause(NotLess, column, ph) == "NOT " + OperatorClause(Less, column, ph)
    ensures OperatorClause(NotLessOrEqual, column, ph) == "NOT " + OperatorClause(LessOrEqual, column, ph)
    ensures OperatorClause(NotLike, column, ph) == "NOT " + OperatorClause(Like, column, ph)
    ensures OperatorClause(NotEqual, column, ph) == column + " <> ?"
  {
  }

  /** The joins of a query never reach the statement. */
  lemma JoinsNotRendered(q: Query, joins: Option<seq<JoinSpec>>)
    ensures OrmSelectSql(q.(joins := joins)) == OrmSelectSql(q)
  {
    WhereBodyJoinsIgnored(q, joins, |q.whereClauses|);
  }

  lemma {:induction false} WhereBodyJoinsIgnored(q: Query, joins: Option<seq<JoinSpec>>, n: nat)
    requires n <= |q.whereClauses|
    ensures WhereBody(AsWrittenDialect(), q.(joins := joins), n) == WhereBody(AsWrittenDialect(), q, n)
  {
    if n > 0 {
      WhereBodyJoinsIgnored(q, joins, n - 1);
    }
  }

  /** Scalars bind exactly one parameter, `Null` none; booleans bind `1` or
      `0` and strings bind the text in single quotes. */
  lemma ScalarParams(v: Value)
    ensures v.Null? ==> ToParamAsWritten(v) == []
    ensures v.U64? || v.I64? || v.F64? || v.String? || v.Boolean? ==> |ToParamAsWritten(v)| == 1
    ensures v == Boolean(true) ==> ToParamAsWritten(v) == ["1"]
    ensures v == Boolean(false) ==> ToParamAsWritten(v) == ["0"]
    ensures v.String? ==> ToParamAsWritten(v) == ["'" + v.s + "'"]
  {
  }

  /** `I64s`, `F64s` and `Strings` bind one parameter per element, in
      order; `U64s` does not (see `U64sParamAsWritten`). */
  lemma VectorParams(v: Value)
    ensures v.I64s? ==> |ToParamAsWritten(v)| == |v.ins| && forall k :: 0 <= k < |v.ins| ==> ToParamAsWritten(v)[k] == IntToString(v.ins[k])
    ensures v.F64s? ==> ToParamAsWritten(v) == v.fs
    ensures v.Strings? ==> |ToParamAsWritten(v)| == |v.ss| && forall k :: 0 <= k < |v.ss| ==> ToParamAsWritten(v)[k] == "'" + v.ss[k] + "'"
  {
  }

  /** Once repaired, a `U64s` list binds one decimal text per element, in
      order, like the other lists; every other value binds what it did. */
  lemma RepairedU64sParams(v: Value)
    ensures v.U64s? ==> |ToParam(v)| == |v.us| && forall k :: 0 <= k < |v.us| ==> ToParam(v)[k] == NatToString(v.us[k])
    ensures !v.U64s? ==> ToParam(v) == ToParamAsWritten(v)
  {
  }

  /** As written, a `U64s` list binds a single parenthesised parameter. */
  lemma U64sParamAsWritten(us: seq<Uint64>)
    ensures var p := ToParamAsWritten(U64s(us));
            |p| == 1 && p[0][0] == '(' && p[0][|p[0]| - 1] == ')'
  {
  }

  // ---------------------------------------------------------------------
  // Placeholders against parameters

  predicate IsVector(v: Value) {
    v.U64s? || v.I64s? || v.F64s? || v.Strings?
  }

  /** The value invariant the design states for conditions (the builder's
      public calls do not enforce it): the column holds no `?`; IS NULL /
      IS NOT NULL carry `Null` and nothing else does; lists go only with
      IN / NOT IN; no sub-query, which is never aligned with more than one
      parameter (`SubQueryConditionAlignedIff`). */
  predicate WellFormed(c: Condition) {
    '?' !in c.column
    && !c.value.SubQuery?
    && ((c.operator == Operator.Null || c.operator == NotNull) <==> c.value.Null?)
    && (IsVector(c.value) ==> IsInOperator(c.operator))
  }

  /** The list values whose IN rendering and serialisation disagree. */
  predicate Misaligned(v: Value) {
    (v.U64s? && |v.us| != 1) || (v.F64s? && |v.fs| != 1)
  }

  lemma NoHoles(s: string)
    requires '?' !in s
    ensures Holes(s) == 0
  {
  }

  /** A column followed by text ending in one `?`. */
  lemma OneHoleAfter(column: string, mid: string)
    requires '?' !in mid
    ensures Holes(column + mid + "?") == Holes(column) + 1
  {
    HolesAppend(column + mid, "?");
    HolesAppend(column, mid);
    assert Holes("?") == 1 by {
      assert multiset("?") == multiset{'?'};
    }
  }

  /** `NOT `, a column and text ending in one `?`. */
  lemma NegatedOneHoleAfter(column: string, mid: string)
    requires '?' !in mid
    ensures Holes("NOT " + column + mid + "?") == Holes(column) + 1
  {
    OneHoleAfter(column, mid);
    HolesAppend("NOT ", column + mid + "?");
    NoHoles("NOT ");
    assert "NOT " + column + mid + "?" == "NOT " + (column + mid + "?");
  }

  /** A column followed by text without `?`. */
  lemma NoHoleAfter(column: string, tail: string)
    requires '?' !in tail
    ensures Holes(column + tail) == Holes(column)
  {
    HolesAppend(column, tail);
  }

  /** Text, a part, and text without `?` around the part. */
  lemma HolesBetween(before: string, open: string, middle: string, close: string)
    requires '?' !in open && '?' !in close
    ensures Holes(before + open + middle + close) == Holes(before) + Holes(middle)
  {
    HolesAppend(before + open + middle, close);
    HolesAppend(before + open, middle);
    HolesAppend(before, open);
    NoHoles(open);
    NoHoles(close);
  }

  /** The operator fragment holds the column's `?`, plus none for IS NULL /
      IS NOT NULL, the placeholder list's for IN / NOT IN, and one
      otherwise. */
  lemma OperatorClauseHoles(op: Operator, column: string, ph: string)
    ensures Holes(OperatorClause(op, column, ph))
            == Holes(column) + (if op == Operator.Null || op == NotNull then 0
                                else if IsInOperator(op) then Holes(ph) else 1)
  {
    if op == Operator.Null || op == NotNull {
      NullOperatorHoles(op, column, ph);
    } else if IsInOperator(op) {
      InOperatorHoles(op, column, ph);
    } else {
      SimpleOperatorHoles(op, column, ph);
    }
  }

  lemma NullOperatorHoles(op: Operator, column: string, ph: string)
    requires op == Operator.Null || op == NotNull
    ensures Holes(OperatorClause(op, column, ph)) == Holes(column)
  {
    var r := OperatorClause(op, column, ph);
    if op == Operator.Null {
      assert r == column + " IS NULL";
      NoHoleAfter(column, " IS NULL");
    } else {
      assert r == column + " IS NOT NULL";
      NoHoleAfter(column, " IS NOT NULL");
    }
  }

  lemma InOperatorHoles(op: Operator, column: string, ph: string)
    requires IsInOperator(op)
    ensures Holes(OperatorClause(op, column, ph)) == Holes(column) + Holes(ph)
  {
    var r := OperatorClause(op, column, ph);
    if op == In {
      assert r == column + " IN (" + ph + ")";
      HolesBetween(column, " IN (", ph, ")");
    } else {
      assert r == column + " NOT IN (" + ph + ")";
      HolesBetween(column, " NOT IN (", ph, ")");
    }
  }

  lemma SimpleOperatorHoles(op: Operator, column: string, ph: string)
    requires op != Operator.Null && op != NotNull && !IsInOperator(op)
    ensures Holes(OperatorClause(op, column, ph)) == Holes(column) + 1
  {
    var r := OperatorClause(op, column, ph);
    match op {
      case Equal =>
        assert r == column + " = " + "?";
        OneHoleAfter(column, " = ");
      case NotEqual =>
        assert r == column + " <> " + "?";
        OneHoleAfter(column, " <> ");
      case Greater =>
        assert r == column + " > " + "?";
        OneHoleAfter(column, " > ");
      case NotGreater =>
        assert r == "NOT " + column + " > " + "?";
        NegatedOneHoleAfter(column, " > ");
      case GreaterOrEqual =>
        assert r == column + " >= " + "?";
        OneHoleAfter(column, " >= ");
      case NotGreaterOrEqual =>
        assert r == "NOT " + column + " >= " + "?";
        NegatedOneHoleAfter(column, " >= ");
      case Less =>
        assert r == column + " < " + "?";
        OneHoleAfter(column, " < ");
      case NotLess =>
        assert r == "NOT " + column + " < " + "?";
        NegatedOneHoleAfter(column, " < ");
      case LessOrEqual =>
        assert r == column + " <= " + "?";
        OneHoleAfter(column, " <= ");
      case NotLessOrEqual =>
        assert r == "NOT " + column + " <= " + "?";
        NegatedOneHoleAfter(column, " <= ");
      case Like =>
        assert r == column + " like " + "?";
        OneHoleAfter(column, " like ");
      case NotLike =>
        assert r == "NOT " + column + " like " + "?";
        NegatedOneHoleAfter(column, " like ");
    }
  }

  lemma AndHoles(acc: string, frag: string)
    ensures Holes(acc + " AND " + frag + " ") == Holes(acc) + Holes(frag)
  {
    HolesBetween(acc, " AND ", frag, " ");
  }

  lemma OrHoles(acc: string, frag: string)
    ensures Holes(acc + " OR " + frag + " ") == Holes(acc) + Holes(frag)
  {
    HolesBetween(acc, " OR ", frag, " ");
  }

  lemma SpaceHoles(acc: string, frag: string)
    ensures Holes(acc + " " + frag + " ") == Holes(acc) + Holes(frag)
  {
    HolesBetween(acc, " ", frag, " ");
  }

  /** Folding one clause adds the `?` of its condition and no others. */
  lemma FoldHoles(w: WhereJoinOperator, acc: string, frag: string)
    ensures Holes(WhereJoinClause(w, acc, frag)) == Holes(acc) + Holes(frag)
  {
    if w.And? && acc != "" {
      AndHoles(acc, frag);
    } else if w.Or? && acc != "" {
      OrHoles(acc, frag);
    } else {
      SpaceHoles(acc, frag);
    }
  }

  /** This generator's connectives add no `?`. */
  lemma OrmFoldKeepsHoles()
    ensures FoldKeepsHoles(AsWrittenDialect())
    ensures FoldKeepsHoles(OrmDialect())
  {
    forall w, acc, frag
      ensures Holes(WhereJoinClause(w, acc, frag)) == Holes(acc) + Holes(frag)
    {
      FoldHoles(w, acc, frag);
    }
  }

  /** Holes and parameters of one well-formed condition under a dialect with
      this generator's fragments. */
  lemma ConditionCounts(d: Dialect, c: Condition)
    requires d.operatorClause == OperatorClause
    requires WellFormed(c)
    ensures Holes(ConditionSql(d, c))
            == if c.operator == Operator.Null || c.operator == NotNull then 0
               else if IsInOperator(c.operator) then d.inLength(c.value) else 1
  {
    OperatorClauseHoles(c.operator, c.column, Placeholder(d, c));
    NoHoles(c.column);
  }

  /** How many parameters a value other than a sub-query binds as written. */
  lemma ParamCountAsWritten(v: Value)
    requires !v.SubQuery?
    ensures |ValueParams(AsWrittenDialect(), v)|
            == if v.Null? then 0 else if v.U64s? then 1 else if v.F64s? then |v.fs|
               else if IsVector(v) then InLength(v) else 1
  {
    assert ValueParams(AsWrittenDialect(), v) == ToParamAsWritten(v);
  }

  /** How many parameters a value other than a sub-query binds with the
      repairs: none for `Null`, one per element of a list, one otherwise. */
  lemma ParamCount(v: Value)
    requires !v.SubQuery?
    ensures |ValueParams(OrmDialect(), v)|
            == if v.Null? then 0 else if IsVector(v) then OrmInLength(v) else 1
  {
    assert ValueParams(OrmDialect(), v) == ToParam(v);
  }

  /** As written, a well-formed condition renders as many `?` as it binds
      parameters exactly when its value is not a `U64s` or `F64s` list of
      length other than one. */
  lemma ConditionAlignedIff(c: Condition)
    requires WellFormed(c)
    ensures ConditionAligned(AsWrittenDialect(), c) <==> !Misaligned(c.value)
  {
    ConditionCounts(AsWrittenDialect(), c);
    ParamCountAsWritten(c.value);
    if IsInOperator(c.operator) {
      assert AsWrittenDialect().inLength(c.value) == InLength(c.value);
    }
  }

  /** As written, the statement of a query whose conditions are well formed
      and free of the misaligned lists binds as many parameters as it has
      placeholders. */
  lemma QueryAlignedAsWritten(q: Query)
    requires forall i :: 0 <= i < |q.whereClauses| ==>
               WellFormed(q.whereClauses[i].condition) && !Misaligned(q.whereClauses[i].condition.value)
    ensures Holes(WhereSql(AsWrittenDialect(), q)) == |QueryParams(AsWrittenDialect(), q)|
  {
    OrmFoldKeepsHoles();
    forall i | 0 <= i < |q.whereClauses|
      ensures ConditionAligned(AsWrittenDialect(), q.whereClauses[i].condition)
    {
      ConditionAlignedIff(q.whereClauses[i].condition);
    }
    QueryAligned(AsWrittenDialect(), q);
  }

  /** As written, `between` on an empty builder pushes a bare `>=`
      condition and then an `Or`-tagged `<=` one, so the statement selects
      every row where either bound holds. */
  lemma BetweenRendersOr(q: Query, column: string, first: Value, last: Value)
    requires q.whereClauses == [First(Condition(column, GreaterOrEqual, first)),
                                Or(Condition(column, LessOrEqual, last))]
    ensures WhereSql(AsWrittenDialect(), q) == "WHERE  " + column + " >= ?  OR " + column + " <= ? "
  {
    var d := AsWrittenDialect();
    var lo := ConditionSql(d, q.whereClauses[0].condition);
    var hi := ConditionSql(d, q.whereClauses[1].condition);
    assert lo == column + " >= ?";
    assert hi == column + " <= ?";
    assert WhereBody(d, q, 0) == "";
    var one := WhereBody(d, q, 1);
    assert one == " " + lo + " ";
    assert WhereBody(d, q, 2) == one + " OR " + hi + " ";
  }

  /** `id IN` over the list `[1, 2]` renders two placeholders but binds a
      single parameter. */
  lemma U64sInBreaksAlignment()
    ensures var c := Condition("id", In, U64s([1, 2]));
            Holes(ConditionSql(AsWrittenDialect(), c)) == 2 && |ValueParams(AsWrittenDialect(), c.value)| == 1
  {
    ConditionCounts(AsWrittenDialect(), Condition("id", In, U64s([1, 2])));
  }

  /** A sub-query value falls to the single `?` of every operator other
      than IS NULL / IS NOT NULL (its IN-list length is one), yet binds every
      parameter of its own where-clauses; so a sub-query condition is
      aligned, as written and repaired alike, exactly when the sub-query
      binds one parameter. */
  lemma SubQueryConditionAlignedIff(d: Dialect, c: Condition)
    requires d == AsWrittenDialect() || d == OrmDialect()
    requires c.value.SubQuery? && '?' !in c.column
    requires c.operator != Operator.Null && c.operator != NotNull
    ensures Holes(ConditionSql(d, c)) == 1
    ensures |ValueParams(d, c.value)| == |QueryParams(d, c.value.query)|
    ensures ConditionAligned(d, c) <==> |QueryParams(d, c.value.query)| == 1
  {
    SubQueryInLength(d, c.value);
    SubQueryAlignedIff(d, c);
  }

  /** Under any dialect with this generator's fragments that gives the
      sub-query an IN-list length of one. */
  lemma SubQueryAlignedIff(d: Dialect, c: Condition)
    requires d.operatorClause == OperatorClause && d.inLength(c.value) == 1
    requires c.value.SubQuery? && '?' !in c.column
    requires c.operator != Operator.Null && c.operator != NotNull
    ensures Holes(ConditionSql(d, c)) == 1
    ensures |ValueParams(d, c.value)| == |QueryParams(d, c.value.query)|
    ensures ConditionAligned(d, c) <==> |QueryParams(d, c.value.query)| == 1
  {
    SubQueryConditionHoles(d, c);
    assert ValueParams(d, c.value) == QueryParams(d, c.value.query);
  }

  /** The single `?` of a non-null operator over a value whose IN-list
      length is one. */
  lemma SubQueryConditionHoles(d: Dialect, c: Condition)
    requires d.operatorClause == OperatorClause && d.inLength(c.value) == 1
    requires '?' !in c.column
    requires c.operator != Operator.Null && c.operator != NotNull
    ensures Holes(ConditionSql(d, c)) == 1
  {
    var ph := Placeholder(d, c);
    assert ConditionSql(d, c) == OperatorClause(c.operator, c.column, ph);
    assert Holes(ph) == 1 by {
      if !IsInOperator(c.operator) {
        assert multiset(ph) == multiset{'?'};
      }
    }
    OperatorClauseHoles(c.operator, c.column, ph);
    NoHoles(c.column);
  }

  /** Both dialects give a sub-query an IN-list length of one. */
  lemma SubQueryInLength(d: Dialect, v: Value)
    requires d == AsWrittenDialect() || d == OrmDialect()
    requires v.SubQuery?
    ensures d.inLength(v) == 1
  {
    if d == AsWrittenDialect() {
      assert d.inLength(v) == InLength(v);
    } else {
      assert d.inLength(v) == OrmInLength(v);
    }
  }

  /** The two conditions `a = 1` and `b = 2` bind two parameters. */
  lemma TwoEqualitiesParams(d: Dialect, sq: Query)
    requires d == AsWrittenDialect() || d == OrmDialect()
    requires sq.whereClauses == [First(Condition("a", Equal, U64(1))), And(Condition("b", Equal, U64(2)))]
    ensures |QueryParams(d, sq)| == 2
  {
    assert |ValueParams(d, U64(1))| == 1 && |ValueParams(d, U64(2))| == 1;
    assert |WhereParams(d, sq, 1)| == 1;
    assert |WhereParams(d, sq, 2)| == 2;
  }

  /** `id IN` over a sub-query with the two conditions `a = 1` and `b = 2`
      renders one placeholder and binds two parameters, in both dialects. */
  lemma SubQueryInBreaksAlignment(d: Dialect, sq: Query)
    requires d == AsWrittenDialect() || d == OrmDialect()
    requires sq == Query([First(Condition("a", Equal, U64(1))), And(Condition("b", Equal, U64(2)))],
                         ["t"], None, None, None)
    ensures var c := Condition("id", In, SubQuery(sq));
            Holes(ConditionSql(d, c)) == 1 && |ValueParams(d, c.value)| == 2
  {
    NoHoles("id");
    SubQueryConditionAlignedIff(d, Condition("id", In, SubQuery(sq)));
    TwoEqualitiesParams(d, sq);
  }

  /** With the repairs, every well-formed condition renders as many `?` as
      it binds parameters. */
  lemma CorrectedConditionAligned(c: Condition)
    requires WellFormed(c)
    ensures ConditionAligned(OrmDialect(), c)
  {
    ConditionCounts(OrmDialect(), c);
    ParamCount(c.value);
  }

  /** With the repairs, the WHERE text of every query of well-formed
      conditions has as many `?` as the query binds parameters. */
  lemma CorrectedQueryAligned(q: Query)
    requires forall i :: 0 <= i < |q.whereClauses| ==> WellFormed(q.whereClauses[i].condition)
    ensures Holes(WhereSql(OrmDialect(), q)) == |QueryParams(OrmDialect(), q)|
  {
    OrmFoldKeepsHoles();
    forall i | 0 <= i < |q.whereClauses|
      ensures ConditionAligned(OrmDialect(), q.whereClauses[i].condition)
    {
      CorrectedConditionAligned(q.whereClauses[i].condition);
    }
    QueryAligned(OrmDialect(), q);
  }
}
