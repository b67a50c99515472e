/**
 * What a MySQL generator produces for the WHERE part of a query and which
 * parameters it binds, independent of how each operator, connective and
 * value is spelled. A `Dialect` carries those spellings; the two generators
 * of the system differ only in their dialect and in their SELECT text.
 *
 * A generator walks the where-clauses in order. For each one it first
 * serialises the condition's value into the shared parameter list (a
 * sub-query contributes the parameters of its own where-clauses, and its
 * SQL text is discarded), then renders the condition with a placeholder
 * (a comma-separated run of `?` for IN / NOT IN, a single `?` otherwise)
 * and folds the fragment into the accumulated text with the clause's
 * connective. A non-empty result is prefixed with `WHERE `.
 */
module SqlGen {
  import opened Text
  import opened QueryTypes

  /** How a generator spells conditions, connectives and parameters. */
  datatype Dialect = Dialect(
    /** (operator, column, placeholder) to the condition's SQL. */
    operatorClause: (Operator, string, string) -> string,
    /** (tagged clause, text so far, condition SQL) to the new text so far. */
    whereJoinClause: (WhereJoinOperator, string, string) -> string,
    /** The parameters a non-sub-query value binds, in order. */
    toParam: Value -> seq<string>,
    /** How many placeholders an IN / NOT IN list gets for a value. */
    inLength: Value -> nat)

  /** The IN-list length both generators use: the element count of
      `I64s`, `U64s` and `Strings`, and 1 for every other value. */
  function InLength(v: Value): (n: nat)
    ensures v.I64s? ==> n == |v.ins|
    ensures v.U64s? ==> n == |v.us|
    ensures v.Strings? ==> n == |v.ss|
    ensures !(v.I64s? || v.U64s? || v.Strings?) ==> n == 1
  {
    match v
    case I64s(ins) => |ins|
    case U64s(us) => |us|
    case Strings(ss) => |ss|
    case _ => 1
  }

  predicate IsInOperator(op: Operator) {
    op == In || op == NotIn
  }

  /** The placeholder text handed to the operator's rendering. */
  function Placeholder(d: Dialect, c: Condition): (ph: string)
    ensures IsInOperator(c.operator) ==> Holes(ph) == d.inLength(c.value)
    ensures !IsInOperator(c.operator) ==> ph == "?"
  {
    if IsInOperator(c.operator) then
      PlaceholdersHoles(d.inLength(c.value));
      Placeholders(d.inLength(c.value))
    else "?"
  }

  /** The SQL of one condition. */
  function ConditionSql(d: Dialect, c: Condition): string {
    d.operatorClause(c.operator, c.column, Placeholder(d, c))
  }

  /** The text accumulated after folding the first `n` where-clauses. */
  function WhereBody(d: Dialect, q: Query, n: nat): string
    requires n <= |q.whereClauses|
  {
    if n == 0 then ""
    else
      var w := q.whereClauses[n - 1];
      d.whereJoinClause(w, WhereBody(d, q, n - 1), ConditionSql(d, w.condition))
  }

  /** The WHERE part of a query: empty, or `WHERE ` and the folded text. */
  function WhereSql(d: Dialect, q: Query): (r: string)
    ensures r == "" || r == "WHERE " + WhereBody(d, q, |q.whereClauses|)
    ensures WhereBody(d, q, |q.whereClauses|) != "" ==> r == "WHERE " + WhereBody(d, q, |q.whereClauses|)
  {
    var body := WhereBody(d, q, |q.whereClauses|);
    if body == "" then "" else "WHERE " + body
  }

  lemma WhereSqlIsWrappedBody(d: Dialect, q: Query, body: string)
    requires body == WhereBody(d, q, |q.whereClauses|)
    ensures WhereSql(d, q) == if body == "" then "" else "WHERE " + body
  {
  }

  /** One pass of a generator's where-clause loop: folding clause `i` into
      the text of the clauses before it, and appending its parameters to
      theirs, gives the text and parameters of the first `i + 1` clauses. */
  lemma FoldStep(d: Dialect, q: Query, i: nat, p0: seq<string>,
                 before: string, after: string, pBefore: seq<string>, pAfter: seq<string>)
    requires i < |q.whereClauses|
    requires before == WhereBody(d, q, i) && pBefore == p0 + WhereParams(d, q, i)
    requires after == d.whereJoinClause(q.whereClauses[i], before, ConditionSql(d, q.whereClauses[i].condition))
    requires pAfter == pBefore + ValueParams(d, q.whereClauses[i].condition.value)
    ensures after == WhereBody(d, q, i + 1) && pAfter == p0 + WhereParams(d, q, i + 1)
  {
    SeqAssoc(p0, WhereParams(d, q, i), ValueParams(d, q.whereClauses[i].condition.value));
  }

  /** The parameters a query binds: those of its where-clauses, in order. */
  function QueryParams(d: Dialect, q: Query): seq<string>
    decreases q, 1
  {
    WhereParams(d, q, |q.whereClauses|)
  }

  /** The parameters bound by the first `n` where-clauses, in order. */
  function WhereParams(d: Dialect, q: Query, n: nat): seq<string>
    requires n <= |q.whereClauses|
    decreases q, 0, n
  {
    if n == 0 then [] else WhereParams(d, q, n - 1) + ValueParams(d, q.whereClauses[n - 1].condition.value)
  }

  /** The parameters one value binds. */
  function ValueParams(d: Dialect, v: Value): seq<string>
    decreases v
  {
    match v
    case SubQuery(sq) => QueryParams(d, sq)
    case _ => d.toParam(v)
  }

  /** Folding more clauses keeps the parameters already bound and appends
      after them: parameters are bound in clause order. */
  lemma WhereParamsPrefix(d: Dialect, q: Query, m: nat, n: nat)
    requires m <= n <= |q.whereClauses|
    ensures |WhereParams(d, q, m)| <= |WhereParams(d, q, n)|
    ensures WhereParams(d, q, n)[..|WhereParams(d, q, m)|] == WhereParams(d, q, m)
    decreases n - m
  {
    if m < n {
      WhereParamsPrefix(d, q, m, n - 1);
      var a, b := WhereParams(d, q, m), WhereParams(d, q, n - 1);
      assert WhereParams(d, q, n) == b + ValueParams(d, q.whereClauses[n - 1].condition.value);
      assert WhereParams(d, q, n)[..|a|] == b[..|a|];
    }
  }

  /** A sub-query's SQL text never reaches the output: the condition renders
      the same whatever the sub-query, while its parameters are exactly the
      sub-query's own. This holds for any dialect whose IN-list length does
      not look inside a sub-query, as `InLength` does not. */
  lemma SubQueryTextDiscarded(d: Dialect, column: string, op: Operator, sq1: Query, sq2: Query)
    requires d.inLength(SubQuery(sq1)) == d.inLength(SubQuery(sq2))
    ensures ConditionSql(d, Condition(column, op, SubQuery(sq1)))
            == ConditionSql(d, Condition(column, op, SubQuery(sq2)))
    ensures ValueParams(d, SubQuery(sq1)) == WhereParams(d, sq1, |sq1.whereClauses|)
  {
  }

  /** The connective folding neither adds nor loses placeholders. */
  ghost predicate FoldKeepsHoles(d: Dialect) {
    forall w, acc, frag {:trigger d.whereJoinClause(w, acc, frag)} ::
      Holes(d.whereJoinClause(w, acc, frag)) == Holes(acc) + Holes(frag)
  }

  /** A condition renders as many placeholders as its value binds
      parameters. */
  ghost predicate ConditionAligned(d: Dialect, c: Condition) {
    Holes(ConditionSql(d, c)) == |ValueParams(d, c.value)|
  }

  /** Placeholders and parameters stay in step clause by clause: after any
      prefix of the where-clauses, the text folded so far holds as many `?`
      as parameters have been bound, provided each condition is aligned and
      the connectives add no `?` of their own. */
  lemma {:induction false} WhereAligned(d: Dialect, q: Query, n: nat)
    requires n <= |q.whereClauses|
    requires FoldKeepsHoles(d)
    requires forall i :: 0 <= i < n ==> ConditionAligned(d, q.whereClauses[i].condition)
    ensures Holes(WhereBody(d, q, n)) == |WhereParams(d, q, n)|
  {
    if n > 0 {
      WhereAligned(d, q, n - 1);
      var w := q.whereClauses[n - 1];
      assert ConditionAligned(d, w.condition);
      assert Holes(WhereBody(d, q, n))
          == Holes(WhereBody(d, q, n - 1)) + Holes(ConditionSql(d, w.condition));
    }
  }

  /** The whole WHERE part holds as many `?` as the query binds parameters. */
  lemma QueryAligned(d: Dialect, q: Query)
    requires FoldKeepsHoles(d)
    requires forall i :: 0 <= i < |q.whereClauses| ==> ConditionAligned(d, q.whereClauses[i].condition)
    ensures Holes(WhereSql(d, q)) == |QueryParams(d, q)|
  {
    WhereAligned(d, q, |q.whereClauses|);
    HolesAppend("WHERE ", WhereBody(d, q, |q.whereClauses|));
    assert Holes("WHERE ") == 0 by {
      assert '?' !in "WHERE ";
    }
  }
}
