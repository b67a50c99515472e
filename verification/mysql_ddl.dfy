/**
 * What the MySQL DDL of a column and of a table is. A column is rendered as
 * its back-quoted name followed by an ordered list of clauses (type,
 * nullability, UNIQUE, DEFAULT, FOREIGN KEY); which clauses appear depends
 * only on the column definition, and the MySQL text of each clause comes
 * from a lookup table.
 */
module MySqlDdl {
  import opened Wrappers
  import opened Text
  import opened Columns

  datatype DdlClause =
    | TypeClause(columnType: ColumnType)
    | NullClause(nullable: bool)
    | UniqueClause
    | DefaultClause(default: ColumnDefault)
    | ForeignKeyClause(foreignKey: ForeignKey)

  /** The position of a clause kind in the fixed order. */
  function Rank(cl: DdlClause): nat {
    match cl
    case TypeClause(_) => 0
    case NullClause(_) => 1
    case UniqueClause => 2
    case DefaultClause(_) => 3
    case ForeignKeyClause(_) => 4
  }

  /** The clauses of a column, in the fixed order: the type always; the
      nullability when one is set; UNIQUE when the column is unique; DEFAULT
      when a default is set; FOREIGN KEY when a relationship is set. */
  function Clauses(c: BaseColumn): (cls: seq<DdlClause>)
    ensures |cls| >= 1 && cls[0] == TypeClause(c.columnType)
  {
    [TypeClause(c.columnType)] + NullPart(c) + UniquePart(c) + DefaultPart(c) + ForeignKeyPart(c)
  }

  function NullPart(c: BaseColumn): seq<DdlClause> {
    match c.isNullable case Some(b) => [NullClause(b)] case None => []
  }

  function UniquePart(c: BaseColumn): seq<DdlClause> {
    if c.isUnique then [UniqueClause] else []
  }

  function DefaultPart(c: BaseColumn): seq<DdlClause> {
    match c.default case Some(d) => [DefaultClause(d)] case None => []
  }

  function ForeignKeyPart(c: BaseColumn): seq<DdlClause> {
    match c.relationship case Some(fk) => [ForeignKeyClause(fk)] case None => []
  }

  /** Clause kinds strictly increase along the list, so each kind appears at
      most once and always in the same place relative to the others. */
  ghost predicate InFixedOrder(cls: seq<DdlClause>) {
    forall i, j :: 0 <= i < j < |cls| ==> Rank(cls[i]) < Rank(cls[j])
  }

  lemma InFixedOrderAppend(a: seq<DdlClause>, b: seq<DdlClause>, k: nat)
    requires InFixedOrder(a) && InFixedOrder(b)
    requires forall i :: 0 <= i < |a| ==> Rank(a[i]) < k
    requires forall j :: 0 <= j < |b| ==> k <= Rank(b[j])
    ensures InFixedOrder(a + b)
  {
    forall i, j | 0 <= i < j < |a + b|
      ensures Rank((a + b)[i]) < Rank((a + b)[j])
    {
      if j < |a| {
      } else if i >= |a| {
        assert (a + b)[i] == b[i - |a|] && (a + b)[j] == b[j - |a|];
      } else {
        assert (a + b)[i] == a[i] && (a + b)[j] == b[j - |a|];
      }
    }
  }

  /** A clause is in a column's list exactly when it is in one of the parts. */
  lemma InClauses(c: BaseColumn, x: DdlClause)
    ensures x in Clauses(c) <==>
            x == TypeClause(c.columnType) || x in NullPart(c) || x in UniquePart(c)
            || x in DefaultPart(c) || x in ForeignKeyPart(c)
  {
    var t, n, u, d, f := [TypeClause(c.columnType)], NullPart(c), UniquePart(c), DefaultPart(c), ForeignKeyPart(c);
    assert Clauses(c) == t + n + u + d + f;
  }

  /** The clauses come in the fixed order, each kind at most once. */
  lemma ClausesInFixedOrder(c: BaseColumn)
    ensures InFixedOrder(Clauses(c))
  {
    var t, n, u, d, f := [TypeClause(c.columnType)], NullPart(c), UniquePart(c), DefaultPart(c), ForeignKeyPart(c);
    assert Clauses(c) == t + n + u + d + f;
    InFixedOrderAppend(t, n, 1);
    var tn := t + n;
    assert forall i :: 0 <= i < |tn| ==> Rank(tn[i]) < 2;
    InFixedOrderAppend(tn, u, 2);
    var tnu := tn + u;
    assert forall i :: 0 <= i < |tnu| ==> Rank(tnu[i]) < 3 by {
      forall i | 0 <= i < |tnu| ensures Rank(tnu[i]) < 3 {
        if i < |tn| { assert tnu[i] == tn[i]; }
      }
    }
    InFixedOrderAppend(tnu, d, 3);
    var tnud := tnu + d;
    assert forall i :: 0 <= i < |tnud| ==> Rank(tnud[i]) < 4 by {
      forall i | 0 <= i < |tnud| ensures Rank(tnud[i]) < 4 {
        if i < |tnu| { assert tnud[i] == tnu[i]; }
      }
    }
    InFixedOrderAppend(tnud, f, 4);
  }

  /** Which clauses a column's DDL has: a nullability clause exactly when one
      is set, carrying that setting; UNIQUE exactly when the column is
      unique; DEFAULT exactly when a default is set, carrying it; FOREIGN KEY
      exactly when a relationship is set, carrying it. */
  lemma ClausesPresence(c: BaseColumn)
    ensures NullClause(false) in Clauses(c) <==> c.isNullable == Some(false)
    ensures NullClause(true) in Clauses(c) <==> c.isNullable == Some(true)
    ensures UniqueClause in Clauses(c) <==> c.isUnique
    ensures forall d :: DefaultClause(d) in Clauses(c) <==> c.default == Some(d)
    ensures forall fk :: ForeignKeyClause(fk) in Clauses(c) <==> c.relationship == Some(fk)
  {
    InClauses(c, NullClause(false));
    InClauses(c, NullClause(true));
    InClauses(c, UniqueClause);
    forall d ensures DefaultClause(d) in Clauses(c) <==> c.default == Some(d) {
      InClauses(c, DefaultClause(d));
    }
    forall fk ensures ForeignKeyClause(fk) in Clauses(c) <==> c.relationship == Some(fk) {
      InClauses(c, ForeignKeyClause(fk));
    }
  }

  /** MySQL text of a column type. */
  function TypeSql(t: ColumnType): string {
    match t
    case AutoIncrementId => "bigint(20) unsigned AUTO_INCREMENT PRIMARY KEY"
    case Boolean => "tinyint(1)"
    case Char(length) => "char(" + NatToString(length) + ") COLLATE 'utf8mb4_unicode_ci'"
    case Date => "datetime"
    case Integer => "bigint(20)"
    case Json => "json"
    case Number => "double"
    case String(length) => "varchar(" + NatToString(length) + ") COLLATE 'utf8mb4_unicode_ci'"
    case Text => "longtext"
    case Uuid => "uuid"
    case Other => "varchar(255)"
  }

  /** MySQL text of a default value. */
  function DefaultSql(d: ColumnDefault): string {
    match d
    case CreatedAt => "now()"
    case Custom(literal) => "'" + literal + "'"
    case EmptyArray => "[]"
    case EmptyObject => "{}"
    case EmptyString => ""
    case Uuid => "SYS_GUID()"
    case Ulid => ""
    case UpdatedAt => "current_timestamp() ON UPDATE CURRENT_TIMESTAMP"
    case Zero => "0"
  }

  /** MySQL text of one clause of the column `name`. */
  function ClauseSql(name: string, cl: DdlClause): string {
    match cl
    case TypeClause(t) => " " + TypeSql(t)
    case NullClause(nullable) => if nullable then " NULL" else " NOT NULL"
    case UniqueClause => " UNIQUE"
    case DefaultClause(d) => " DEFAULT " + DefaultSql(d)
    case ForeignKeyClause(fk) =>
      ", FOREIGN KEY (`" + name + "`) REFERENCES `" + fk.table + "` (`" + fk.column + "`)"
      + (if fk.cascadeDelete then " ON DELETE CASCADE" else "")
  }

  /** The text of a list of clauses of the column `name`. */
  function ClausesSql(name: string, cls: seq<DdlClause>): string {
    ConcatMap(cl => ClauseSql(name, cl), cls)
  }

  lemma ClausesSqlAppend(name: string, a: seq<DdlClause>, b: seq<DdlClause>)
    ensures ClausesSql(name, a + b) == ClausesSql(name, a) + ClausesSql(name, b)
  {
    ConcatMapAppend(cl => ClauseSql(name, cl), a, b);
  }

  lemma ClausesSqlSingle(name: string, cl: DdlClause)
    ensures ClausesSql(name, [cl]) == ClauseSql(name, cl)
  {
    ConcatMapSingle(cl => ClauseSql(name, cl), cl);
  }

  /** The DDL fragment of a column. */
  function ColumnSql(c: BaseColumn): string {
    "`" + c.name + "`" + ClausesSql(c.name, Clauses(c))
  }

  /** The fragments of the columns, in order. */
  function ColumnsSql(cs: seq<BaseColumn>): (r: seq<string>)
    ensures |r| == |cs|
    ensures forall i :: 0 <= i < |cs| ==> r[i] == ColumnSql(cs[i])
  {
    seq(|cs|, i requires 0 <= i < |cs| => ColumnSql(cs[i]))
  }

  /** The CREATE TABLE statement of a table. */
  function TableSql(t: BaseTable): string {
    "CREATE TABLE `" + t.name + "` (\n" + Join(ColumnsSql(t.columns), ",\n") + "\n) ENGINE='InnoDB';"
  }

  /** Each nullability setting has its own text, and an unset one has none. */
  lemma NullabilityText(name: string)
    ensures ClauseSql(name, NullClause(false)) == " NOT NULL"
    ensures ClauseSql(name, NullClause(true)) == " NULL"
  {
  }

  /** A DEFAULT clause always starts with ` DEFAULT `; for the `Ulid` default
      nothing follows it. */
  lemma DefaultText(name: string, d: ColumnDefault)
    ensures ClauseSql(name, DefaultClause(d)) == " DEFAULT " + DefaultSql(d)
    ensures d == Ulid ==> ClauseSql(name, DefaultClause(d)) == " DEFAULT "
  {
  }

  /** Unlisted column types fall back to `varchar(255)`. */
  lemma FallbackType()
    ensures TypeSql(Other) == "varchar(255)"
  {
  }

  /** ` ON DELETE CASCADE` ends the foreign-key clause exactly when deletes
      cascade. */
  lemma CascadeIff(name: string, fk: ForeignKey)
    ensures var s := ClauseSql(name, ForeignKeyClause(fk));
            (|s| >= 18 && s[|s| - 18..] == " ON DELETE CASCADE") <==> fk.cascadeDelete
  {
    var s := ClauseSql(name, ForeignKeyClause(fk));
    if !fk.cascadeDelete {
      assert s[|s| - 1] == ')';
    }
  }

  /** A column that sets no option is its back-quoted name and its type. */
  lemma BareColumnText(name: string, t: ColumnType)
    ensures ColumnSql(BaseColumn(name, t, None, false, None, None)) == "`" + name + "` " + TypeSql(t)
  {
    var c := BaseColumn(name, t, None, false, None, None);
    assert Clauses(c) == [TypeClause(t)];
    ClausesSqlSingle(name, TypeClause(t));
  }

  /** A column that sets only its nullability is its back-quoted name, its
      type, then ` NOT NULL` or ` NULL`. */
  lemma NullableColumnText(name: string, t: ColumnType, nullable: bool)
    ensures ColumnSql(BaseColumn(name, t, Some(nullable), false, None, None))
            == "`" + name + "` " + TypeSql(t) + (if nullable then " NULL" else " NOT NULL")
  {
    var c := BaseColumn(name, t, Some(nullable), false, None, None);
    var ty := [TypeClause(t)];
    assert NullPart(c) == [NullClause(nullable)];
    assert Clauses(c) == ty + [NullClause(nullable)];
    ClausesSqlSingle(name, TypeClause(t));
    ClausesSqlAppend(name, ty, [NullClause(nullable)]);
    ClausesSqlSingle(name, NullClause(nullable));
    assert ClausesSql(name, Clauses(c)) == " " + TypeSql(t) + ClauseSql(name, NullClause(nullable));
  }

  /** The column-type step of `create_column`: appends the type's text. */
  method PushTypeText(theType: string, t: ColumnType) returns (r: string)
    ensures r == theType + TypeSql(t)
  {
    match t {
      case AutoIncrementId => r := theType + "bigint(20) unsigned AUTO_INCREMENT PRIMARY KEY";
      case Boolean => r := theType + "tinyint(1)";
      case Char(length) =>
        r := theType + ("char(" + NatToString(length) + ") COLLATE 'utf8mb4_unicode_ci'");
      case Date => r := theType + "datetime";
      case Integer => r := theType + "bigint(20)";
      case Json => r := theType + "json";
      case Number => r := theType + "double";
      case String(length) =>
        var q := "varchar(" + NatToString(length) + ") COLLATE 'utf8mb4_unicode_ci'";
        r := theType + q;
      case Text => r := theType + "longtext";
      case Uuid => r := theType + "uuid";
      case Other => r := theType + "varchar(255)";
    }
  }

  /** The default step of `create_column`, after ` DEFAULT `: appends the
      default's text (nothing for `Ulid`). */
  method PushDefaultText(theType: string, d: ColumnDefault) returns (r: string)
    ensures r == theType + DefaultSql(d)
  {
    r := theType;
    match d {
      case CreatedAt => r := r + "now()";
      case Custom(literal) => r := r + ("'" + literal + "'");
      case EmptyArray => r := r + "[]";
      case EmptyObject => r := r + "{}";
      case EmptyString => r := r + "";
      case Uuid => r := r + "SYS_GUID()";
      case Ulid =>
      case UpdatedAt => r := r + "current_timestamp() ON UPDATE CURRENT_TIMESTAMP";
      case Zero => r := r + "0";
    }
  }

  /** The nullability step of `create_column`. */
  method PushNullability(theType: string, c: BaseColumn) returns (r: string)
    ensures r == theType + ClausesSql(c.name, NullPart(c))
  {
    r := theType;
    if c.isNullable.Some? {
      if c.isNullable.value {
        r := r + " NULL";
      } else {
        r := r + " NOT NULL";
      }
      ClausesSqlSingle(c.name, NullClause(c.isNullable.value));
    }
  }

  /** The uniqueness step of `create_column`. */
  method PushUnique(theType: string, c: BaseColumn) returns (r: string)
    ensures r == theType + ClausesSql(c.name, UniquePart(c))
  {
    r := theType;
    if c.isUnique {
      r := r + " UNIQUE";
      ClausesSqlSingle(c.name, UniqueClause);
    }
  }

  /** The default step of `create_column`. */
  method PushDefault(theType: string, c: BaseColumn) returns (r: string)
    ensures r == theType + ClausesSql(c.name, DefaultPart(c))
  {
    r := theType;
    if c.default.Some? {
      r := r + " DEFAULT ";
      r := PushDefaultText(r, c.default.value);
      ClausesSqlSingle(c.name, DefaultClause(c.default.value));
    }
  }

  /** The relationship step of `create_column`. */
  method PushForeignKey(theType: string, c: BaseColumn) returns (r: string)
    ensures r == theType + ClausesSql(c.name, ForeignKeyPart(c))
  {
    r := theType;
    if c.relationship.Some? {
      var fk := c.relationship.value;
      r := r + (", FOREIGN KEY (`" + c.name + "`) REFERENCES `" + fk.table + "` (`" + fk.column + "`)");
      if fk.cascadeDelete {
        r := r + " ON DELETE CASCADE";
      }
      ClausesSqlSingle(c.name, ForeignKeyClause(fk));
    }
  }

  /** `create_column`: the column's DDL fragment, built by appending each
      clause's text in turn to the type text. */
  method CreateColumn(c: BaseColumn) returns (entry: string)
    ensures entry == ColumnSql(c)
  {
    entry := "`" + c.name + "`";
    var theType := " ";
    theType := PushTypeText(theType, c.columnType);
    ClausesSqlSingle(c.name, TypeClause(c.columnType));
    var done := [TypeClause(c.columnType)];

    theType := PushNullability(theType, c);
    ClausesSqlAppend(c.name, done, NullPart(c));
    done := done + NullPart(c);

    theType := PushUnique(theType, c);
    ClausesSqlAppend(c.name, done, UniquePart(c));
    done := done + UniquePart(c);

    theType := PushDefault(theType, c);
    ClausesSqlAppend(c.name, done, DefaultPart(c));
    done := done + DefaultPart(c);

    theType := PushForeignKey(theType, c);
    ClausesSqlAppend(c.name, done, ForeignKeyPart(c));
    done := done + ForeignKeyPart(c);

    entry := entry + theType;
  }

  /** The statement text of `create_table`: every column rendered in order,
      then the fragments wrapped in `CREATE TABLE`. */
  method CreateTableStatement(t: BaseTable) returns (statement: string)
    ensures statement == TableSql(t)
  {
    var columns := CreateColumns(t.columns);
    statement := "CREATE TABLE `" + t.name + "` (\n" + Join(columns, ",\n") + "\n) ENGINE='InnoDB';";
  }

  /** The column loop of `create_table`: one fragment per column, in order. */
  method CreateColumns(cs: seq<BaseColumn>) returns (columns: seq<string>)
    ensures columns == ColumnsSql(cs)
  {
    columns := [];
    for i := 0 to |cs|
      invariant |columns| == i
      invariant forall j :: 0 <= j < i ==> columns[j] == ColumnSql(cs[j])
    {
      var column := CreateColumn(cs[i]);
      columns := columns + [column];
    }
  }
}
