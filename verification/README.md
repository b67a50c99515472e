# dirtybase data-access core in Dafny

This project models the data-access core of dirtybase, a Rust back end over MySQL:

- the fluent query builder of the `dirtybase_db` crate;
- the two MySQL text generators, the `dirtybase_db` one and the older `dirtybase_orm` one, which turn builders and table definitions into SQL text plus the list of parameters to bind;
- the small value and record types around them: conditions, join kinds, save records, the orm builder skeleton and the orm value conversions;
- the orm `Manager`, which commits a table only when the existence check allows it.

Each core file takes the form of its source:

- **Builders and records.** The builders, the save record, the schema managers and the manager are classes whose methods update their fields in place.
- **Generators.** The generators are methods with loops. Each is proved against a specification function (`SelectSql`, `WhereSql`, `QueryParams`, `ColumnSql`, `TableSql`).
- **Value types.** Conditions, join kinds and value conversions are datatypes and functions.

The property the generators exist for is alignment: the WHERE text has as many `?` placeholders as parameters are bound, clause by clause and in order.

- **Shared layer.** Module `SqlGen` states this over a `Dialect`, which is how a generator spells operators, connectives and values.
- **`dirtybase_db` generator.** It takes its spellings from helpers that are not part of this model (`Operator::as_clause`, `WhereJoinOperator::as_clause`, `Value::to_param`). It holds them as given functions, and what is proved about it holds whatever they are.
- **`dirtybase_orm` generator.** It spells everything out, so alignment is proved outright: as written, exactly for the well-formed conditions (no sub-query, lists only with IN / NOT IN, no `?` in a column name) that hold no `U64s` or `F64s` list of length other than one; once repaired, for every well-formed condition. A sub-query condition is misaligned in both unless the sub-query binds exactly one parameter.

Two places where the code does not do what it evidently means are recorded under Findings. The builder's methods and the generator's methods model the code as written, and lemmas exhibit each problem; the repaired behaviour is a separate definition (`QueryBuilders.ClauseTag`, `OrmMySql.OrmDialect`) with the intended property proved about it.

Operator, value and connective vocabulary: the `dirtybase_orm` generator uses the variants of the `dirtybase_db` crate (`NotEqual`, `U64s`, `SubQuery`, …), not those declared in the orm crate's own `query.rs` / `query_values.rs`. Both generators are therefore modelled over one shared vocabulary (module `QueryTypes`), and the orm crate's own builder and values get modules of their own (`OrmQuery`, `OrmValues`).

The orm builder's `Value::Number`, the generators' `F64` values and `F64s` lists carry floating-point numbers; they are modelled as their text.

## Model

| member | source | states |
|---|---|---|
| Conditions.NewCondition | lib/dirtybase_db/src/base/query_conditions.rs:11-17 | the built condition's accessors return the given column, operator and value unchanged |
| Conditions.AccessorsRebuild | lib/dirtybase_db/src/base/query_conditions.rs:19-29 | the accessors lose nothing: rebuilding from what they return gives the same condition |
| Conditions.NewConditionInjective | lib/dirtybase_db/src/base/query_conditions.rs:11-17 | conditions built from different arguments differ |
| JoinTypes.ParseDisplay | lib/dirtybase_db/src/base/query_join_types.rs:10-20 | `inner`, `left` and `right` are read back as the kind that displayed them, so the kind is recoverable from its text |
| JoinTypes.DisplayInjective | lib/dirtybase_db/src/base/query_join_types.rs:12-17 | the three renderings are distinct |
| QueryBuilders.PushedTag | lib/dirtybase_db/src/base/query.rs:514-537 | as written: the first bare condition on an empty builder is `First`, and every other condition, `and_*`, `or_*` or bare, is tagged `Or` |
| QueryBuilders.AndWhereTagsOr | lib/dirtybase_db/src/base/query.rs:604-606 | as written, `and_where` tags its condition `Or`, and as a first call leaves a list whose first clause is not `First` |
| QueryBuilders.ClauseTag | lib/dirtybase_db/src/base/query.rs:514-537 | repaired tag: `First` exactly for a bare condition on an empty builder, `Or` exactly for `or_*`, `And` exactly for `and_*` or a later bare condition; the condition is kept |
| QueryBuilders.TagsDifferIff | lib/dirtybase_db/src/base/query.rs:600-606 | the code as written and the repaired tag disagree exactly on the conditions routed through `and_where` |
| QueryBuilders.ClauseTagKeepsShape | lib/dirtybase_db/src/base/query.rs:509-520 | with the repaired tag, adding a condition to a list whose first clause, and only that one, is `First` keeps that shape (an `and_*` / `or_*` call on an empty builder is excluded: it still starts the list with a tagged clause) |
| QueryBuilders.NewJoin | lib/dirtybase_db/src/base/query.rs:100-117 | a join keeps its table, kind and select list, and its join clause is `left op right` with single spaces |
| QueryBuilders.JoinQueryBuilder.constructor | lib/dirtybase_db/src/base/query.rs:100-117 | the new join holds exactly what `NewJoin` builds |
| QueryBuilders.JoinQueryBuilder.Select | lib/dirtybase_db/src/base/query.rs:119-130 | allocates the select list on first use and appends the column after those already selected |
| QueryBuilders.JoinQueryBuilder.SelectMultiple | lib/dirtybase_db/src/base/query.rs:132-140 | allocates the select list on first use and appends the columns in argument order after those already selected |
| QueryBuilders.QueryBuilder.constructor | lib/dirtybase_db/src/base/query.rs:160-168 | a new builder has the given tables and no clauses, select list, set map or joins |
| QueryBuilders.QueryBuilder.Set | lib/dirtybase_db/src/base/query.rs:186-196 | allocates the set map on first use; the column then maps to the value (last write wins) and every other column keeps its value |
| QueryBuilders.QueryBuilder.SetMultiple | lib/dirtybase_db/src/base/query.rs:198-213 | allocates the set map on first use; after the insertion loop every given column maps to its given value and every other column keeps its value |
| QueryBuilders.QueryBuilder.Select | lib/dirtybase_db/src/base/query.rs:219-229 | allocates the select list on first use and appends the column after those already selected |
| QueryBuilders.QueryBuilder.SelectMultiple | lib/dirtybase_db/src/base/query.rs:231-251 | allocates the select list on first use and appends the columns in argument order after those already selected |
| QueryBuilders.QueryBuilder.Where | lib/dirtybase_db/src/base/query.rs:509-512 | appends the clause as the last one; the earlier clauses are unchanged |
| QueryBuilders.QueryBuilder.FirstOrAnd | lib/dirtybase_db/src/base/query.rs:514-520 | on an empty builder appends the condition tagged `First`, otherwise routes it through `and_where`, which tags it `Or` |
| QueryBuilders.QueryBuilder.WhereOperator | lib/dirtybase_db/src/base/query.rs:522-537 | builds the condition from column, operator and value and appends exactly one clause: `First` for a bare condition on an empty builder and, as written, `Or` for every other (`Some(And)`, `Some(Or)` or a later bare one) |
| QueryBuilders.QueryBuilder.OrWhere | lib/dirtybase_db/src/base/query.rs:600-602 | appends the condition tagged `Or` |
| QueryBuilders.QueryBuilder.AndWhere | lib/dirtybase_db/src/base/query.rs:604-606 | appends the condition tagged `Or`, as `or_where` does, despite its name (see Findings) |
| QueryBuilders.QueryBuilder.Eq | lib/dirtybase_db/src/base/query.rs:253-255 | appends exactly one `Equal` clause on the column with the given value, tagged `First` on a builder with no clauses and otherwise `Or`, since it goes through `and_where` (see Findings), after the existing clauses, which are kept |
| QueryBuilders.QueryBuilder.AndEq | lib/dirtybase_db/src/base/query.rs:257-259 | appends exactly one `Equal` clause on the column with the given value, tagged `Or`, since `and_where` pushes `Or` (see Findings), after the existing clauses, which are kept |
| QueryBuilders.QueryBuilder.OrEq | lib/dirtybase_db/src/base/query.rs:261-263 | appends exactly one `Equal` clause on the column with the given value, tagged `Or`, after the existing clauses, which are kept |
| QueryBuilders.QueryBuilder.NotEq | lib/dirtybase_db/src/base/query.rs:265-267 | appends exactly one `NotEqual` clause on the column with the given value, tagged `First` on a builder with no clauses and otherwise `Or`, since it goes through `and_where` (see Findings), after the existing clauses, which are kept |
| QueryBuilders.QueryBuilder.AndNotEq | lib/dirtybase_db/src/base/query.rs:269-271 | appends exactly one `NotEqual` clause on the column with the given value, tagged `Or`, since `and_where` pushes `Or` (see Findings), after the existing clauses, which are kept |
| QueryBuilders.QueryBuilder.OrNotEq | lib/dirtybase_db/src/base/query.rs:273-275 | appends exactly one `NotEqual` clause on the column with the given value, tagged `Or`, after the existing clauses, which are kept |
| QueryBuilders.QueryBuilder.Gt | lib/dirtybase_db/src/base/query.rs:277-279 | appends exactly one `Greater` clause on the column with the given value, tagged `First` on a builder with no clauses and otherwise `Or`, since it goes through `and_where` (see Findings), after the existing clauses, which are kept |
| QueryBuilders.QueryBuilder.AndGt | lib/dirtybase_db/src/base/query.rs:281-283 | appends exactly one `Greater` clause on the column with the given value, tagged `Or`, since `and_where` pushes `Or` (see Findings), after the existing clauses, which are kept |
| QueryBuilders.QueryBuilder.OrGt | lib/dirtybase_db/src/base/query.rs:285-287 | appends exactly one `Greater` clause on the column with the given value, tagged `Or`, after the existing clauses, which are kept |
| QueryBuilders.QueryBuilder.Ngt | lib/dirtybase_db/src/base/query.rs:289-291 | appends exactly one `NotGreater` clause on the column with the given value, tagged `First` on a builder with no clauses and otherwise `Or`, since it goes through `and_where` (see Findings), after the existing clauses, which are kept |
| QueryBuilders.QueryBuilder.AndNgt | lib/dirtybase_db/src/base/query.rs:292-294 | appends exactly one `NotGreater` clause on the column with the given value, tagged `Or`, since `and_where` pushes `Or` (see Findings), after the existing clauses, which are kept |
| QueryBuilders.QueryBuilder.OrNgt | lib/dirtybase_db/src/base/query.rs:296-298 | appends exactly one `NotGreater` clause on the column with the given value, tagged `Or`, after the existing clauses, which are kept |
| QueryBuilders.QueryBuilder.GtOrEq | lib/dirtybase_db/src/base/query.rs:300-302 | appends exactly one `GreaterOrEqual` clause on the column with the given value, tagged `First` on a builder with no clauses and otherwise `Or`, since it goes through `and_where` (see Findings), after the existing clauses, which are kept |
| QueryBuilders.QueryBuilder.AndGtOrEq | lib/dirtybase_db/src/base/query.rs:304-311 | appends exactly one `GreaterOrEqual` clause on the column with the given value, tagged `Or`, since `and_where` pushes `Or` (see Findings), after the existing clauses, which are kept |
| QueryBuilders.QueryBuilder.OrGtOrEq | lib/dirtybase_db/src/base/query.rs:312-314 | appends exactly one `GreaterOrEqual` clause on the column with the given value, tagged `Or`, after the existing clauses, which are kept |
| QueryBuilders.QueryBuilder.NotGtOrEq | lib/dirtybase_db/src/base/query.rs:316-318 | appends exactly one `NotGreaterOrEqual` clause on the column with the given value, tagged `First` on a builder with no clauses and otherwise `Or`, since it goes through `and_where` (see Findings), after the existing clauses, which are kept |
| QueryBuilders.QueryBuilder.AndNotGtOrEq | lib/dirtybase_db/src/base/query.rs:320-327 | appends exactly one `NotGreaterOrEqual` clause on the column with the given value, tagged `Or`, since `and_where` pushes `Or` (see Findings), after the existing clauses, which are kept |
| QueryBuilders.QueryBuilder.OrNotGtOrEq | lib/dirtybase_db/src/base/query.rs:329-336 | appends exactly one `NotGreaterOrEqual` clause on the column with the given value, tagged `Or`, after the existing clauses, which are kept |
| QueryBuilders.QueryBuilder.Le | lib/dirtybase_db/src/base/query.rs:338-340 | appends exactly one `Less` clause on the column with the given value, tagged `First` on a builder with no clauses and otherwise `Or`, since it goes through `and_where` (see Findings), after the existing clauses, which are kept |
| QueryBuilders.QueryBuilder.AndLe | lib/dirtybase_db/src/base/query.rs:342-344 | appends exactly one `Less` clause on the column with the given value, tagged `Or`, since `and_where` pushes `Or` (see Findings), after the existing clauses, which are kept |
| QueryBuilders.QueryBuilder.OrLe | lib/dirtybase_db/src/base/query.rs:345-347 | appends exactly one `Less` clause on the column with the given value, tagged `Or`, after the existing clauses, which are kept |
| QueryBuilders.QueryBuilder.LeOrEq | lib/dirtybase_db/src/base/query.rs:349-351 | appends exactly one `LessOrEqual` clause on the column with the given value, tagged `First` on a builder with no clauses and otherwise `Or`, since it goes through `and_where` (see Findings), after the existing clauses, which are kept |
| QueryBuilders.QueryBuilder.AndLeOrEq | lib/dirtybase_db/src/base/query.rs:353-355 | appends exactly one `LessOrEqual` clause on the column with the given value, tagged `Or`, since `and_where` pushes `Or` (see Findings), after the existing clauses, which are kept |
| QueryBuilders.QueryBuilder.OrLeOrEq | lib/dirtybase_db/src/base/query.rs:357-359 | appends exactly one `LessOrEqual` clause on the column with the given value, tagged `Or`, after the existing clauses, which are kept |
| QueryBuilders.QueryBuilder.NotLe | lib/dirtybase_db/src/base/query.rs:361-363 | appends exactly one `NotLess` clause on the column with the given value, tagged `First` on a builder with no clauses and otherwise `Or`, since it goes through `and_where` (see Findings), after the existing clauses, which are kept |
| QueryBuilders.QueryBuilder.AndNle | lib/dirtybase_db/src/base/query.rs:365-367 | appends exactly one `NotLess` clause on the column with the given value, tagged `Or`, since `and_where` pushes `Or` (see Findings), after the existing clauses, which are kept |
| QueryBuilders.QueryBuilder.OrNle | lib/dirtybase_db/src/base/query.rs:369-371 | appends exactly one `NotLess` clause on the column with the given value, tagged `Or`, after the existing clauses, which are kept |
| QueryBuilders.QueryBuilder.NleOrEq | lib/dirtybase_db/src/base/query.rs:373-375 | appends exactly one `NotLessOrEqual` clause on the column with the given value, tagged `First` on a builder with no clauses and otherwise `Or`, since it goes through `and_where` (see Findings), after the existing clauses, which are kept |
| QueryBuilders.QueryBuilder.AndNleOrEq | lib/dirtybase_db/src/base/query.rs:377-384 | appends exactly one `NotLessOrEqual` clause on the column with the given value, tagged `Or`, since `and_where` pushes `Or` (see Findings), after the existing clauses, which are kept |
| QueryBuilders.QueryBuilder.OrNleOrEq | lib/dirtybase_db/src/base/query.rs:386-388 | appends exactly one `NotLessOrEqual` clause on the column with the given value, tagged `Or`, after the existing clauses, which are kept |
| QueryBuilders.QueryBuilder.Like | lib/dirtybase_db/src/base/query.rs:390-392 | appends exactly one `Like` clause on the column with the given value, tagged `First` on a builder with no clauses and otherwise `Or`, since it goes through `and_where` (see Findings), after the existing clauses, which are kept |
| QueryBuilders.QueryBuilder.AndLike | lib/dirtybase_db/src/base/query.rs:394-396 | appends exactly one `Like` clause on the column with the given value, tagged `Or`, since `and_where` pushes `Or` (see Findings), after the existing clauses, which are kept |
| QueryBuilders.QueryBuilder.OrLike | lib/dirtybase_db/src/base/query.rs:398-400 | appends exactly one `Like` clause on the column with the given value, tagged `Or`, after the existing clauses, which are kept |
| QueryBuilders.QueryBuilder.Nlike | lib/dirtybase_db/src/base/query.rs:402-404 | appends exactly one `NotLike` clause on the column with the given value, tagged `First` on a builder with no clauses and otherwise `Or`, since it goes through `and_where` (see Findings), after the existing clauses, which are kept |
| QueryBuilders.QueryBuilder.AndNlike | lib/dirtybase_db/src/base/query.rs:406-408 | appends exactly one `NotLike` clause on the column with the given value, tagged `Or`, since `and_where` pushes `Or` (see Findings), after the existing clauses, which are kept |
| QueryBuilders.QueryBuilder.OrNlike | lib/dirtybase_db/src/base/query.rs:410-412 | appends exactly one `NotLike` clause on the column with the given value, tagged `Or`, after the existing clauses, which are kept |
| QueryBuilders.QueryBuilder.IsNull | lib/dirtybase_db/src/base/query.rs:414-416 | appends exactly one `Null` clause on the column with the `Null` value, tagged `First` on a builder with no clauses and otherwise `Or`, since it goes through `and_where` (see Findings), after the existing clauses, which are kept |
| QueryBuilders.QueryBuilder.AndIsNull | lib/dirtybase_db/src/base/query.rs:418-420 | appends exactly one `Null` clause on the column with the `Null` value, tagged `Or`, since `and_where` pushes `Or` (see Findings), after the existing clauses, which are kept |
| QueryBuilders.QueryBuilder.OrIsNull | lib/dirtybase_db/src/base/query.rs:422-424 | appends exactly one `Null` clause on the column with the `Null` value, tagged `Or`, after the existing clauses, which are kept |
| QueryBuilders.QueryBuilder.IsNotNull | lib/dirtybase_db/src/base/query.rs:426-428 | appends exactly one `NotNull` clause on the column with the `Null` value, tagged `First` on a builder with no clauses and otherwise `Or`, since it goes through `and_where` (see Findings), after the existing clauses, which are kept |
| QueryBuilders.QueryBuilder.AndIsNotNull | lib/dirtybase_db/src/base/query.rs:430-432 | appends exactly one `NotNull` clause on the column with the `Null` value, tagged `Or`, since `and_where` pushes `Or` (see Findings), after the existing clauses, which are kept |
| QueryBuilders.QueryBuilder.OrIsNotNull | lib/dirtybase_db/src/base/query.rs:434-436 | appends exactly one `NotNull` clause on the column with the `Null` value, tagged `Or`, after the existing clauses, which are kept |
| QueryBuilders.QueryBuilder.IsIn | lib/dirtybase_db/src/base/query.rs:438-440 | appends exactly one `In` clause on the column with the given value, tagged `First` on a builder with no clauses and otherwise `Or`, since it goes through `and_where` (see Findings), after the existing clauses, which are kept |
| QueryBuilders.QueryBuilder.AndIsIn | lib/dirtybase_db/src/base/query.rs:442-448 | appends exactly one `In` clause on the column with the given value, tagged `Or`, since `and_where` pushes `Or` (see Findings), after the existing clauses, which are kept |
| QueryBuilders.QueryBuilder.OrIsIn | lib/dirtybase_db/src/base/query.rs:450-452 | appends exactly one `In` clause on the column with the given value, tagged `Or`, after the existing clauses, which are kept |
| QueryBuilders.QueryBuilder.IsNotIn | lib/dirtybase_db/src/base/query.rs:454-460 | appends exactly one `NotIn` clause on the column with the given value, tagged `First` on a builder with no clauses and otherwise `Or`, since it goes through `and_where` (see Findings), after the existing clauses, which are kept |
| QueryBuilders.QueryBuilder.AndIsNotIn | lib/dirtybase_db/src/base/query.rs:462-468 | appends exactly one `NotIn` clause on the column with the given value, tagged `Or`, since `and_where` pushes `Or` (see Findings), after the existing clauses, which are kept |
| QueryBuilders.QueryBuilder.OrIsNotIn | lib/dirtybase_db/src/base/query.rs:470-476 | appends exactly one `NotIn` clause on the column with the given value, tagged `Or`, after the existing clauses, which are kept |
| QueryBuilders.QueryBuilder.Between | lib/dirtybase_db/src/base/query.rs:478-480 | appends exactly two clauses: `GreaterOrEqual` on the first value, tagged like any bare condition, then `LessOrEqual` on the last value tagged `Or` (through `and_le_or_eq`), so the pair reads `column >= first OR column <= last` |
| QueryBuilders.QueryBuilder.AndBetween | lib/dirtybase_db/src/base/query.rs:482-484 | appends `GreaterOrEqual` then `LessOrEqual`, both tagged `Or` because both go through `and_where` |
| QueryBuilders.QueryBuilder.OrBetween | lib/dirtybase_db/src/base/query.rs:486-488 | appends `GreaterOrEqual` then `LessOrEqual`, both tagged `Or` (the second through `and_le_or_eq`) |
| QueryBuilders.QueryBuilder.NotBetween | lib/dirtybase_db/src/base/query.rs:490-492 | appends exactly two clauses: `NotGreaterOrEqual` on the first value, tagged like any bare condition, then `NotLessOrEqual` on the last value tagged `Or` (through `and_nle_or_eq`) |
| QueryBuilders.QueryBuilder.AndNotBetween | lib/dirtybase_db/src/base/query.rs:494-502 | appends `NotGreaterOrEqual` then `NotLessOrEqual`, both tagged `Or` because both go through `and_where` |
| QueryBuilders.QueryBuilder.OrNotBetween | lib/dirtybase_db/src/base/query.rs:504-507 | appends `NotGreaterOrEqual` then `NotLessOrEqual`, both tagged `Or` (the second through `and_nle_or_eq`) |
| QueryBuilders.QueryBuilder.Join | lib/dirtybase_db/src/base/query.rs:539-563 | allocates the join list on first use and appends one join built by `NewJoin`; earlier joins are kept |
| QueryBuilders.QueryBuilder.LeftJoin | lib/dirtybase_db/src/base/query.rs:565-580 | appends one left join with no select list |
| QueryBuilders.QueryBuilder.LeftJoinAndSelect | lib/dirtybase_db/src/base/query.rs:582-598 | appends one left join selecting the given columns |
| Text.PlaceholdersHoles | lib/dirtybase_db/src/driver/mysql/mysql_schema_manager.rs:313-324 | the IN placeholder list for n elements holds exactly n `?`, only `?` and commas, and is 2n-1 characters long when n > 0 |
| Text.NatToStringRoundTrip | lib/dirtybase_orm/src/driver/mysql/mysql_schema_manager.rs:336 | the decimal text of an unsigned parameter reads back as the number |
| Text.IntToString | lib/dirtybase_orm/src/driver/mysql/mysql_schema_manager.rs:337 | the decimal text of a signed parameter is non-empty and holds only digits and `-` |
| SqlGen.InLength | lib/dirtybase_db/src/driver/mysql/mysql_schema_manager.rs:315-320 | the IN-list length is the element count of `I64s`, `U64s` and `Strings` and 1 for any other value |
| SqlGen.Placeholder | lib/dirtybase_db/src/driver/mysql/mysql_schema_manager.rs:313-327 | IN / NOT IN get as many `?` as the IN-list length, every other operator a single `?` |
| SqlGen.WhereSql | lib/dirtybase_db/src/driver/mysql/mysql_schema_manager.rs:303-307 | the WHERE part is empty or `WHERE ` followed by the folded clauses, and the latter whenever the fold left any text |
| SqlGen.FoldStep | lib/dirtybase_db/src/driver/mysql/mysql_schema_manager.rs:296-301 | one loop pass extends the text and the parameters of the first i clauses to those of the first i+1 |
| SqlGen.WhereParamsPrefix | lib/dirtybase_db/src/driver/mysql/mysql_schema_manager.rs:334-341 | parameters are bound in clause order: folding more clauses keeps the parameters already bound as a prefix |
| SqlGen.SubQueryTextDiscarded | lib/dirtybase_db/src/driver/mysql/mysql_schema_manager.rs:336-338 | a condition renders the same whatever its sub-query, and the sub-query value binds exactly the sub-query's own parameters |
| SqlGen.WhereAligned | lib/dirtybase_db/src/driver/mysql/mysql_schema_manager.rs:294-301 | if every condition renders as many `?` as it binds parameters and connectives add none, every prefix of the fold holds as many `?` as parameters bound |
| SqlGen.QueryAligned | lib/dirtybase_db/src/driver/mysql/mysql_schema_manager.rs:294-308 | under the same conditions the whole WHERE part holds as many `?` as the query binds parameters |
| DbMySql.Stars | lib/dirtybase_db/src/driver/mysql/mysql_schema_manager.rs:250-256 | one `t.*` per table, in order |
| DbMySql.TableStarsIsJoin | lib/dirtybase_db/src/driver/mysql/mysql_schema_manager.rs:249-257 | the table loop lists every table as `t.*`, in order, separated by `, ` after one leading space |
| DbMySql.SelectAllTables | lib/dirtybase_db/src/driver/mysql/mysql_schema_manager.rs:243-292 | a query with no select list, joins or conditions selects `t.*` of every table in order, FROM the tables joined by `,`, and ends with one space |
| DbMySql.LeftJoinText | lib/dirtybase_db/src/driver/mysql/mysql_schema_manager.rs:261-286 | a `left_join` selects all of the joined table and renders as ` left join <table> on <left op right>` |
| DbMySql.JoinsInOrder | lib/dirtybase_db/src/driver/mysql/mysql_schema_manager.rs:261-286 | each join adds its fields and its JOIN clause after those of the joins before it |
| DbMySql.MySqlSchemaManager.constructor | lib/dirtybase_db/src/driver/mysql/mysql_schema_manager.rs:67-77 | a new manager holds the given spelling helpers and no active query |
| DbMySql.MySqlSchemaManager.Query | lib/dirtybase_db/src/driver/mysql/mysql_schema_manager.rs:67-77 | the active query becomes the generated statement with the parameters of the query, starting from none |
| DbMySql.MySqlSchemaManager.BuildQuery | lib/dirtybase_db/src/driver/mysql/mysql_schema_manager.rs:243-292 | returns the statement `SelectSql` and appends exactly the query's parameters after the given ones |
| DbMySql.MySqlSchemaManager.PushFields | lib/dirtybase_db/src/driver/mysql/mysql_schema_manager.rs:246-258 | appends the select list joined by `,`, or `t.*` for each table |
| DbMySql.MySqlSchemaManager.PushJoinFields | lib/dirtybase_db/src/driver/mysql/mysql_schema_manager.rs:260-270 | appends, for each join in order, its columns or `<table>.*` |
| DbMySql.MySqlSchemaManager.PushJoinClauses | lib/dirtybase_db/src/driver/mysql/mysql_schema_manager.rs:275-286 | appends one ` <kind> join <table> on <clause>` per join, in order |
| DbMySql.MySqlSchemaManager.AppendJoinClause | lib/dirtybase_db/src/driver/mysql/mysql_schema_manager.rs:277-285 | appending the text of join i extends the rendered joins from the first i to the first i+1 |
| DbMySql.MySqlSchemaManager.BuildWhereClauses | lib/dirtybase_db/src/driver/mysql/mysql_schema_manager.rs:294-308 | returns `WhereSql` of the query and appends the parameters of its clauses in clause order |
| DbMySql.MySqlSchemaManager.TransformCondition | lib/dirtybase_db/src/driver/mysql/mysql_schema_manager.rs:310-332 | returns the condition's SQL with `Placeholder` and appends the value's parameters |
| DbMySql.MySqlSchemaManager.TransformValue | lib/dirtybase_db/src/driver/mysql/mysql_schema_manager.rs:334-341 | a sub-query appends the parameters of its own clauses, any other value what `to_param` gives |
| MySqlDdl.Clauses | lib/dirtybase_db/src/driver/mysql/mysql_schema_manager.rs:164-237 | a column's clause list always starts with its type |
| MySqlDdl.ClausesInFixedOrder | lib/dirtybase_db/src/driver/mysql/mysql_schema_manager.rs:164-237 | the clauses come in the fixed order type, nullability, UNIQUE, DEFAULT, FOREIGN KEY, each at most once |
| MySqlDdl.ClausesPresence | lib/dirtybase_db/src/driver/mysql/mysql_schema_manager.rs:195-237 | ` NOT NULL` appears exactly when nullability is `Some(false)`, ` NULL` exactly when `Some(true)`; UNIQUE exactly when the column is unique; DEFAULT exactly when a default is set and FOREIGN KEY exactly when a relationship is set, each carrying it |
| MySqlDdl.NullabilityText | lib/dirtybase_db/src/driver/mysql/mysql_schema_manager.rs:195-201 | the nullability clause is ` NOT NULL` for false and ` NULL` for true |
| MySqlDdl.DefaultText | lib/dirtybase_db/src/driver/mysql/mysql_schema_manager.rs:209-224 | a DEFAULT clause is ` DEFAULT ` and the default's text; for `Ulid` nothing follows |
| MySqlDdl.FallbackType | lib/dirtybase_db/src/driver/mysql/mysql_schema_manager.rs:191 | types without their own text become `varchar(255)` |
| MySqlDdl.CascadeIff | lib/dirtybase_db/src/driver/mysql/mysql_schema_manager.rs:227-237 | the foreign-key clause ends with ` ON DELETE CASCADE` exactly when deletes cascade |
| MySqlDdl.BareColumnText | lib/dirtybase_db/src/driver/mysql/mysql_schema_manager.rs:164-241 | a column that sets no option renders as its back-quoted name, a space and its type |
| MySqlDdl.NullableColumnText | lib/dirtybase_db/src/driver/mysql/mysql_schema_manager.rs:164-241 | a column that sets only its nullability renders as name, type, then ` NULL` or ` NOT NULL` |
| MySqlDdl.ColumnsSql | lib/dirtybase_db/src/driver/mysql/mysql_schema_manager.rs:111-115 | one fragment per column, in order |
| MySqlDdl.PushTypeText | lib/dirtybase_db/src/driver/mysql/mysql_schema_manager.rs:168-192 | appends the type's text |
| MySqlDdl.PushDefaultText | lib/dirtybase_db/src/driver/mysql/mysql_schema_manager.rs:211-223 | appends the default's text |
| MySqlDdl.PushNullability | lib/dirtybase_db/src/driver/mysql/mysql_schema_manager.rs:194-201 | appends the nullability clause when one is set and nothing otherwise |
| MySqlDdl.PushUnique | lib/dirtybase_db/src/driver/mysql/mysql_schema_manager.rs:203-206 | appends ` UNIQUE` when the column is unique |
| MySqlDdl.PushDefault | lib/dirtybase_db/src/driver/mysql/mysql_schema_manager.rs:208-224 | appends ` DEFAULT ` and the default's text when a default is set |
| MySqlDdl.PushForeignKey | lib/dirtybase_db/src/driver/mysql/mysql_schema_manager.rs:226-237 | appends the foreign-key clause, with ` ON DELETE CASCADE` when deletes cascade, when a relationship is set |
| MySqlDdl.CreateColumn | lib/dirtybase_db/src/driver/mysql/mysql_schema_manager.rs:164-241 | the fragment is `ColumnSql`: the back-quoted name followed by the texts of the column's clauses in the fixed order; `create_column` of the `dirtybase_orm` generator (lib/dirtybase_orm/src/driver/mysql/mysql_schema_manager.rs:153-230) renders the same text, so this member and its lemmas describe both |
| MySqlDdl.CreateTableStatement | lib/dirtybase_db/src/driver/mysql/mysql_schema_manager.rs:110-121 | the statement is ``CREATE TABLE `name` (\n``, the column fragments joined by `,\n`, then `\n) ENGINE='InnoDB';` |
| MySqlDdl.CreateColumns | lib/dirtybase_db/src/driver/mysql/mysql_schema_manager.rs:111-115 | one fragment per column, in column order |
| OrmMySql.NatsText | lib/dirtybase_orm/src/driver/mysql/mysql_schema_manager.rs:343-350 | one text per element |
| OrmMySql.IntsText | lib/dirtybase_orm/src/driver/mysql/mysql_schema_manager.rs:351-356 | one text per element |
| OrmMySql.QuotedAll | lib/dirtybase_orm/src/driver/mysql/mysql_schema_manager.rs:363-369 | one quoted text per element |
| OrmMySql.BuildQuery | lib/dirtybase_orm/src/driver/mysql/mysql_schema_manager.rs:232-250 | the statement is `SELECT`, the select list or `*`, ` FROM ` and the tables joined by `,`, a space and the WHERE part; the query's parameters are appended, as written (a `U64s` list as one parameter) |
| OrmMySql.BuildWhereClauses | lib/dirtybase_orm/src/driver/mysql/mysql_schema_manager.rs:252-292 | returns `WhereSql` of the code as written, appends the parameters in clause order, and, when every condition is well formed and holds no `U64s` or `F64s` list of length other than one, appends exactly as many parameters as the text has `?` |
| OrmMySql.FoldWhereClauses | lib/dirtybase_orm/src/driver/mysql/mysql_schema_manager.rs:253-285 | after the loop the text and parameters are those of all clauses, as the code is written |
| OrmMySql.FoldClause | lib/dirtybase_orm/src/driver/mysql/mysql_schema_manager.rs:255-284 | ` AND ` / ` OR ` only when text was already emitted, a single space otherwise; the condition's parameters are appended, as the code is written |
| OrmMySql.TransformCondition | lib/dirtybase_orm/src/driver/mysql/mysql_schema_manager.rs:294-331 | the fixed fragment of the operator, with the IN placeholder list for IN / NOT IN (one `?` for an `F64s` list); the value's parameters are appended first |
| OrmMySql.InPlaceholder | lib/dirtybase_orm/src/driver/mysql/mysql_schema_manager.rs:311-322 | as many comma-separated `?` as the elements of an `I64s`, `U64s` or `Strings` list, and a single `?` for any other value, an `F64s` list included |
| OrmMySql.TransformValue | lib/dirtybase_orm/src/driver/mysql/mysql_schema_manager.rs:333-374 | appends the value's parameters: scalars one, `I64s` / `F64s` / `Strings` one per element, a `U64s` list one parenthesised parameter, a sub-query those of its own clauses |
| OrmMySql.WhereBodyNonEmpty | lib/dirtybase_orm/src/driver/mysql/mysql_schema_manager.rs:254-285 | folding at least one clause always leaves text |
| OrmMySql.WhereSqlEmptyIff | lib/dirtybase_orm/src/driver/mysql/mysql_schema_manager.rs:287-291 | the WHERE part is empty exactly when there are no clauses, and otherwise starts with `WHERE ` |
| OrmMySql.Connectives | lib/dirtybase_orm/src/driver/mysql/mysql_schema_manager.rs:254-284 | the first emitted clause has no connective whatever its tag; each later one is preceded by ` AND `, ` OR ` or a space by its tag |
| OrmMySql.NegatedForms | lib/dirtybase_orm/src/driver/mysql/mysql_schema_manager.rs:296-308 | each negated ordering or LIKE fragment is `NOT ` followed by the positive one; `NotEqual` is `<>` |
| OrmMySql.JoinsNotRendered | lib/dirtybase_orm/src/driver/mysql/mysql_schema_manager.rs:244 | the joins of a query never change the statement |
| OrmMySql.WhereBodyJoinsIgnored | lib/dirtybase_orm/src/driver/mysql/mysql_schema_manager.rs:252-285 | the folded WHERE text does not depend on the joins |
| OrmMySql.ScalarParams | lib/dirtybase_orm/src/driver/mysql/mysql_schema_manager.rs:335-342 | `Null` binds nothing, each scalar exactly one parameter; booleans bind `1` / `0` and strings the text in single quotes |
| OrmMySql.VectorParams | lib/dirtybase_orm/src/driver/mysql/mysql_schema_manager.rs:343-369 | `I64s`, `F64s` and `Strings` bind one parameter per element, in order |
| OrmMySql.RepairedU64sParams | lib/dirtybase_orm/src/driver/mysql/mysql_schema_manager.rs:333-369 | repaired, a `U64s` list binds one decimal text per element in order; every other value binds what it binds as written |
| OrmMySql.U64sParamAsWritten | lib/dirtybase_orm/src/driver/mysql/mysql_schema_manager.rs:343-350 | as written, a `U64s` list binds a single parenthesised parameter |
| OrmMySql.NoHoles | lib/dirtybase_orm/src/driver/mysql/mysql_schema_manager.rs:296-310 | text without `?` has no placeholders |
| OrmMySql.OperatorClauseHoles | lib/dirtybase_orm/src/driver/mysql/mysql_schema_manager.rs:296-329 | each fragment holds the column's `?` plus none for IS NULL / IS NOT NULL, the list's for IN / NOT IN and one otherwise |
| OrmMySql.NullOperatorHoles | lib/dirtybase_orm/src/driver/mysql/mysql_schema_manager.rs:309-310 | IS NULL / IS NOT NULL add no placeholder |
| OrmMySql.InOperatorHoles | lib/dirtybase_orm/src/driver/mysql/mysql_schema_manager.rs:324-328 | IN / NOT IN add exactly the placeholders of their list |
| OrmMySql.SimpleOperatorHoles | lib/dirtybase_orm/src/driver/mysql/mysql_schema_manager.rs:297-308 | every other operator adds exactly one placeholder |
| OrmMySql.FoldHoles | lib/dirtybase_orm/src/driver/mysql/mysql_schema_manager.rs:254-284 | folding a clause adds its condition's `?` and no others |
| OrmMySql.OrmFoldKeepsHoles | lib/dirtybase_orm/src/driver/mysql/mysql_schema_manager.rs:254-284 | the connectives add no placeholders, as written and repaired |
| OrmMySql.ConditionCounts | lib/dirtybase_orm/src/driver/mysql/mysql_schema_manager.rs:294-331 | a well-formed condition renders 0, the IN-list length, or 1 placeholders by its operator |
| OrmMySql.ParamCountAsWritten | lib/dirtybase_orm/src/driver/mysql/mysql_schema_manager.rs:333-369 | as written, `Null` binds 0 parameters, `U64s` 1, `F64s` one per element, other lists their IN-list length and scalars 1 |
| OrmMySql.ParamCount | lib/dirtybase_orm/src/driver/mysql/mysql_schema_manager.rs:333-369 | repaired, `Null` binds 0 parameters, every list one per element and every scalar 1 |
| OrmMySql.ConditionAlignedIff | lib/dirtybase_orm/src/driver/mysql/mysql_schema_manager.rs:311-369 | as written, a well-formed condition renders as many `?` as it binds parameters exactly when its value is not a `U64s` or `F64s` list whose length differs from one |
| OrmMySql.QueryAlignedAsWritten | lib/dirtybase_orm/src/driver/mysql/mysql_schema_manager.rs:252-369 | as written, a query whose conditions are all well formed (no sub-query, …) and free of those lists is aligned |
| OrmMySql.BetweenRendersOr | lib/dirtybase_db/src/base/query.rs:478-480 | as written, `between` on an empty builder renders `WHERE  column >= ?  OR column <= ? `: either bound alone selects the row |
| OrmMySql.U64sInBreaksAlignment | lib/dirtybase_orm/src/driver/mysql/mysql_schema_manager.rs:311-350 | `id IN` over `[1, 2]` renders two placeholders but binds one parameter |
| OrmMySql.SubQueryInLength | lib/dirtybase_orm/src/driver/mysql/mysql_schema_manager.rs:312-317 | a sub-query falls to the IN-list length 1, as written and repaired |
| OrmMySql.SubQueryConditionHoles | lib/dirtybase_orm/src/driver/mysql/mysql_schema_manager.rs:294-331 | any operator other than IS NULL / IS NOT NULL over a value of IN-list length 1 renders exactly one `?` |
| OrmMySql.SubQueryAlignedIff | lib/dirtybase_orm/src/driver/mysql/mysql_schema_manager.rs:294-372 | with this generator's fragments, a sub-query condition renders one `?`, binds the sub-query's parameters, and is aligned exactly when there is one |
| OrmMySql.SubQueryConditionAlignedIff | lib/dirtybase_orm/src/driver/mysql/mysql_schema_manager.rs:294-372 | as written and repaired alike, a sub-query condition with an operator other than IS NULL / IS NOT NULL renders one `?` and binds all of the sub-query's parameters, so it is aligned exactly when the sub-query binds one |
| OrmMySql.SubQueryInBreaksAlignment | lib/dirtybase_orm/src/driver/mysql/mysql_schema_manager.rs:294-372 | `id IN` over a sub-query with the conditions `a = 1` and `b = 2` renders one `?` and binds two parameters, as written and repaired |
| OrmMySql.CorrectedConditionAligned | lib/dirtybase_orm/src/driver/mysql/mysql_schema_manager.rs:294-369 | repaired, every well-formed condition (no sub-query, …) renders as many `?` as it binds parameters |
| OrmMySql.CorrectedQueryAligned | lib/dirtybase_orm/src/driver/mysql/mysql_schema_manager.rs:252-369 | repaired, the WHERE text of every query of well-formed conditions has as many `?` as the query binds parameters |
| OrmQuery.Built | lib/dirtybase_orm/src/base/query.rs:58-70 | a fresh builder after adding clauses holds the tables and exactly those clauses in order, and nothing selected or set |
| OrmQuery.QueryBuilder.constructor | lib/dirtybase_orm/src/base/query.rs:58-65 | a new builder holds the tables unchanged and in order, no clauses, and no select or set list |
| OrmQuery.QueryBuilder.Where | lib/dirtybase_orm/src/base/query.rs:67-70 | appends the clause last; earlier clauses, tables and column lists are unchanged |
| OrmValues.FromI32 | lib/dirtybase_orm/src/base/query_values.rs:17-21 | an `i32` becomes an `Isize` of the same number |
| OrmValues.FromI32s | lib/dirtybase_orm/src/base/query_values.rs:23-27 | a `Vec<i32>` becomes `Isizes` of the same length, element for element in order |
| OrmValues.FromU32 | lib/dirtybase_orm/src/base/query_values.rs:29-33 | a `u32` becomes a `Usize` of the same number |
| OrmValues.FromU32s | lib/dirtybase_orm/src/base/query_values.rs:35-39 | a `Vec<u32>` becomes `Usizes` of the same length, element for element in order |
| OrmValues.AsI32 | lib/dirtybase_orm/src/base/query_values.rs:17-21 | reading an `i32` back succeeds only from an `Isize` holding it |
| OrmValues.AsI32s | lib/dirtybase_orm/src/base/query_values.rs:23-27 | reading a `Vec<i32>` back succeeds only from `Isizes` holding it |
| OrmValues.AsU32 | lib/dirtybase_orm/src/base/query_values.rs:29-33 | reading a `u32` back succeeds only from a `Usize` holding it |
| OrmValues.AsU32s | lib/dirtybase_orm/src/base/query_values.rs:35-39 | reading a `Vec<u32>` back succeeds only from `Usizes` holding it |
| OrmValues.FromI32RoundTrip | lib/dirtybase_orm/src/base/query_values.rs:17-21 | the conversion loses nothing: the number reads back |
| OrmValues.FromI32sRoundTrip | lib/dirtybase_orm/src/base/query_values.rs:23-27 | the conversion loses nothing: the list reads back |
| OrmValues.FromU32RoundTrip | lib/dirtybase_orm/src/base/query_values.rs:29-33 | the conversion loses nothing: the number reads back |
| OrmValues.FromU32sRoundTrip | lib/dirtybase_orm/src/base/query_values.rs:35-39 | the conversion loses nothing: the list reads back |
| OrmValues.FromI32sInjective | lib/dirtybase_orm/src/base/query_values.rs:23-27 | different lists convert to different values |
| OrmValues.FromU32sInjective | lib/dirtybase_orm/src/base/query_values.rs:35-39 | different lists convert to different values |
| OrmValues.SignedUnsignedDistinct | lib/dirtybase_orm/src/base/query_values.rs:17-39 | signed and unsigned conversions never produce the same value |
| Save.PathFor | lib/dirtybase_db/src/base/save.rs:26-31 | a record takes the update path, with its id, exactly when it has `internal_id`, and the insert path otherwise, both for its table |
| Save.SettingIdUpdates | lib/dirtybase_db/src/base/save.rs:16-31 | setting `internal_id` makes any record an update of that id |
| Save.SettingOtherKeepsPath | lib/dirtybase_db/src/base/save.rs:16-31 | setting any other column leaves the path unchanged |
| Save.MergingPath | lib/dirtybase_db/src/base/save.rs:21-31 | merging columns gives the update path of a merged id, and otherwise keeps the old path |
| Save.SaveRecord.constructor | lib/dirtybase_db/src/base/save.rs:9-14 | a new record holds the table name and no columns |
| Save.SaveRecord.Set | lib/dirtybase_db/src/base/save.rs:16-19 | the column then holds the value, overwriting any earlier one; every other column keeps its value |
| Save.SaveRecord.SetMany | lib/dirtybase_db/src/base/save.rs:21-24 | each given column holds its given value; columns not given keep theirs |
| Save.SaveRecord.Save | lib/dirtybase_db/src/base/save.rs:26-31 | reports the update path exactly when `internal_id` is present, and changes nothing |
| Managers.Created | lib/dirtybase_orm/src/base/manager.rs:49-57 | `create` commits a table exactly when the name is not taken |
| Managers.Updated | lib/dirtybase_orm/src/base/manager.rs:60-68 | `update` commits a table exactly when the name is taken |
| Managers.Commits | lib/dirtybase_orm/src/base/manager.rs:55 | at most one commit, and the table when there is one |
| Managers.CreateUpdateExclusive | lib/dirtybase_orm/src/base/manager.rs:49-68 | for any name exactly one of `create` and `update` commits |
| Managers.CommittedIdentity | lib/dirtybase_orm/src/base/manager.rs:49-68 | with a callback that edits columns only, `create` commits a table of the given name marked new, `update` one marked existing |
| Managers.SchemaBackend.constructor | lib/dirtybase_orm/src/base/manager.rs:6-8 | the backend starts with the given tables and empty logs |
| Managers.SchemaBackend.Commit | lib/dirtybase_orm/src/base/manager.rs:55 | the table is appended to the commit log |
| Managers.SchemaBackend.Query | lib/dirtybase_orm/src/base/manager.rs:45 | the builder's contents are appended to the query log |
| Managers.Manager.constructor | lib/dirtybase_orm/src/base/manager.rs:6-8 | the manager holds the given backend |
| Managers.Manager.HasTable | lib/dirtybase_orm/src/base/manager.rs:74-76 | true exactly when the backend holds the table |
| Managers.Manager.Create | lib/dirtybase_orm/src/base/manager.rs:49-57 | the commit log grows by the table `Created` gives, and by nothing when the name is taken |
| Managers.Manager.Update | lib/dirtybase_orm/src/base/manager.rs:60-68 | the commit log grows by the table `Updated` gives, and by nothing when the name is free |
| Managers.Manager.Tables | lib/dirtybase_orm/src/base/manager.rs:39-46 | exactly one query is handed over: a fresh builder over the tables with the callback's clauses in order |
| Managers.Manager.Table | lib/dirtybase_orm/src/base/manager.rs:32-37 | behaves as `tables` over the one table |
| Managers.Manager.Insert | lib/dirtybase_orm/src/base/manager.rs:70-72 | a fresh record for the table with no columns |

## Left out

- Database I/O is not modelled: catalog lookups, DDL execution, statement execution and row streaming (`fetch_all_as_json`), the `_core_users` seed insert with `generate_ulid`, and the async runtime. `has_table` is a set of table names held by the backend; `commit` and `query` append to logs.
- `row_to_json` is not modelled: it is typed database reads and date and floating-point conversion.
- Floating-point values are carried as their text; how Rust formats an `f64` is not modelled.
- The binaries under `bin/`, `commit_table.rs` and the orm `schema.rs` trait are not part of this model. The trait's `query` takes a table name, while `Manager::tables` hands it a builder; the model follows the call.
- `Operator::as_clause`, `WhereJoinOperator::as_clause` and `Value::to_param` of the `dirtybase_db` crate are not part of this model. The db generator takes them as given functions.
- `BaseTable`, `BaseColumn`, `ColumnType`, `ColumnDefault` and the relationship type are declared only from the fields the generators use.
- The builder's read-only accessors are not modelled separately: a builder's contents are read through `Snapshot`. `QueryBuilder::set_columns` returns the select list instead of the set map; nothing in the core calls it.
- A generator's parameter list is a value passed in and returned (`params` / `params'`), not a shared `&mut Vec`.
- OrmMySql.WellFormed: the alignment lemmas cover conditions that keep the design's value invariant (no `?` in a column name, IS NULL only with `Null`, lists only with IN, no sub-query). The builder's public calls (`eq`, `where_operator`, `where_`) accept any value with any operator, so they do not enforce it. A sub-query condition renders one `?` (its IN-list length is 1, and every other operator has one) but binds every parameter of the sub-query's own clauses, while the sub-query's text is discarded (`SubQueryTextDiscarded`). So it is misaligned, as written and repaired alike, unless the sub-query binds exactly one parameter (`SubQueryConditionAlignedIff`, `SubQueryInBreaksAlignment`). It is not a Findings row: the code builds the sub-query's SELECT and drops it, and nothing in the code shows which rendering was meant (the SELECT text in place of the `?`, or one `?` per bound parameter), so there is no intended definition to prove a repair against. The `dirtybase_db` generator treats sub-queries the same way.
- SqlGen.SubQueryTextDiscarded: requires the dialect's IN-list length to agree on the two sub-queries, as `InLength` does for every sub-query.
- Callbacks are modelled by their effect. A table callback is a function from the table handed to it to the table it leaves. A query callback is the list of clauses it adds with `where_`, the orm builder's only mutating call.
- `commit` does not add the table to the backend's set of existing tables: creating the table is database I/O.
- `Manager::new`, `db_kind`, `is_mysql` and `inner` are not modelled: they pick the database driver.
- `usize` and `isize` are taken to be 64 bits wide.
- `SaveRecord::save` prints its decision; the model returns it as a `SavePath` instead.
- JoinTypes.Display carries no contract of its own: `ParseDisplay` and `DisplayInjective` state what its three texts are for.

## Findings

| source | as written | input that shows it | evidently intended | confidence | as-written member | corrected member |
|---|---|---|---|---|---|---|
| lib/dirtybase_db/src/base/query.rs:604-606 | `and_where` pushes `WhereJoinOperator::Or`, so every `and_*` call and every bare call after the first is joined with OR | `and_eq("a", 1)` on an empty builder gives `[Or(a = 1)]`; `eq("a",1).eq("b",2)` gives `[None(a = 1), Or(b = 2)]` | `and_where` pushes `WhereJoinOperator::And` | high; not executed | QueryBuilders.AndWhereTagsOr | QueryBuilders.ClauseTagKeepsShape |
| lib/dirtybase_orm/src/driver/mysql/mysql_schema_manager.rs:311-369 | IN over `U64s` renders one `?` per element but binds one parenthesised parameter; IN over `F64s` renders one `?` but binds one parameter per element | `id IN` over `U64s([1, 2])` gives `id IN (?,?)` with the single parameter `(1,2)` | one parameter per element for `U64s`, and one placeholder per element for `F64s`, as for `I64s` and `Strings` | high; not executed | OrmMySql.U64sInBreaksAlignment | OrmMySql.CorrectedQueryAligned |
