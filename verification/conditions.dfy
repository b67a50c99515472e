/** `Condition::new` and its read-only accessors. */
module Conditions {
  import opened QueryTypes

  function ColumnOf(c: Condition): string { c.column }

  function OperatorOf(c: Condition): Operator { c.operator }

  function ValueOf(c: Condition): Value { c.value }

  /** Builds a condition. The source converts its argument with `Into<Value>`;
      here the caller passes the converted value. */
  function NewCondition(column: string, operator: Operator, value: Value): (c: Condition)
    ensures ColumnOf(c) == column
    ensures OperatorOf(c) == operator
    ensures ValueOf(c) == value
  {
    Condition(column, operator, value)
  }

  /** The accessors lose nothing: a condition is rebuilt from what they return. */
  lemma AccessorsRebuild(c: Condition)
    ensures NewCondition(ColumnOf(c), OperatorOf(c), ValueOf(c)) == c
  {
  }

  /** Two conditions built from different arguments differ. */
  lemma NewConditionInjective(col1: string, op1: Operator, v1: Value,
                              col2: string, op2: Operator, v2: Value)
    requires NewCondition(col1, op1, v1) == NewCondition(col2, op2, v2)
    ensures col1 == col2 && op1 == op2 && v1 == v2
  {
  }
}
