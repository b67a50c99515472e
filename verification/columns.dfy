/**
 * Column and table definitions, declared from how the DDL generators use
 * them: a column has a name, a type, an optional nullability, a unique
 * flag, an optional default and an optional foreign key; a table has a
 * name, its columns and a new-or-existing flag.
 */
module Columns {
  import opened Wrappers

  /** `Other` stands for the variants the DDL match does not list, which all
      fall back to `varchar(255)`. */
  datatype ColumnType =
    | AutoIncrementId
    | Boolean
    | Char(length: nat)
    | Date
    | Integer
    | Json
    | Number
    | String(length: nat)
    | Text
    | Uuid
    | Other

  datatype ColumnDefault =
    | CreatedAt
    | Custom(literal: string)
    | EmptyArray
    | EmptyObject
    | EmptyString
    | Uuid
    | Ulid
    | UpdatedAt
    | Zero

  /** The relationship of a column: the referenced table and column, and
      whether deletes cascade (`cascade_delete()`). */
  datatype ForeignKey = ForeignKey(table: string, column: string, cascadeDelete: bool)

  datatype BaseColumn = BaseColumn(
    name: string,
    columnType: ColumnType,
    isNullable: Option<bool>,
    isUnique: bool,
    default: Option<ColumnDefault>,
    relationship: Option<ForeignKey>)

  datatype BaseTable = BaseTable(name: string, columns: seq<BaseColumn>, isNew: bool)
}
