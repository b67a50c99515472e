/**
 * The entry point of the `dirtybase_orm` crate: a manager that guards
 * schema changes with an existence check and hands built queries to its
 * schema manager.
 *
 * The schema manager is seen only through what the manager asks of it: the
 * set of tables the database holds (`has_table`), the table it hands out
 * for editing (`fetch_table_for_update`, a given function of the name), and
 * the tables committed and queries received, kept as logs. The callbacks a
 * caller passes are modelled by their effect: a table callback is a
 * function from the table handed to it to the table it leaves, and a query
 * callback is the list of clauses it adds with `where_`, the builder's only
 * fluent call.
 */
module Managers {
  import opened Wrappers
  import opened Columns
  import opened OrmQuery
  import opened Save

  /** The table `create` commits, if any: only when the name is not taken,
      the edited table marked new and then passed through the callback. */
  function Created(existing: set<string>, fetch: string -> BaseTable,
                   callback: BaseTable -> BaseTable, name: string): (r: Option<BaseTable>)
    ensures r.Some? <==> name !in existing
  {
    if name !in existing then Some(callback(fetch(name).(isNew := true))) else None
  }

  /** The table `update` commits, if any: only when the name is taken, the
      edited table marked existing and then passed through the callback. */
  function Updated(existing: set<string>, fetch: string -> BaseTable,
                   callback: BaseTable -> BaseTable, name: string): (r: Option<BaseTable>)
    ensures r.Some? <==> name in existing
  {
    if name in existing then Some(callback(fetch(name).(isNew := false))) else None
  }

  /** The commits an optional table adds to the log. */
  function Commits(t: Option<BaseTable>): (r: seq<BaseTable>)
    ensures |r| <= 1
    ensures t.Some? ==> r == [t.value]
  {
    if t.Some? then [t.value] else []
  }

  /** A callback that edits columns only, leaving the name and the new flag
      as it found them. */
  ghost predicate EditsColumnsOnly(callback: BaseTable -> BaseTable) {
    forall t {:trigger callback(t)} :: callback(t).name == t.name && callback(t).isNew == t.isNew
  }

  /** Whatever the database holds, exactly one of `create` and `update`
      commits for a given name. */
  lemma CreateUpdateExclusive(existing: set<string>, fetch: string -> BaseTable,
                              callback: BaseTable -> BaseTable, name: string)
    ensures Created(existing, fetch, callback, name).Some? != Updated(existing, fetch, callback, name).Some?
  {
  }

  /** With a callback that edits columns only, `create` commits a table of
      the requested name marked new, and `update` one marked existing. */
  lemma CommittedIdentity(existing: set<string>, fetch: string -> BaseTable,
                          callback: BaseTable -> BaseTable, name: string)
    requires fetch(name).name == name
    requires EditsColumnsOnly(callback)
    ensures var c := Created(existing, fetch, callback, name);
            c.Some? ==> c.value.name == name && c.value.isNew
    ensures var u := Updated(existing, fetch, callback, name);
            u.Some? ==> u.value.name == name && !u.value.isNew
  {
    var t := fetch(name);
    assert callback(t.(isNew := true)).name == name;
    assert callback(t.(isNew := false)).name == name;
  }

  class SchemaBackend {
    /** `fetch_table_for_update`. */
    const fetch: string -> BaseTable
    /** The tables the database holds. */
    var existing: set<string>
    /** The tables committed so far, in order. */
    var committed: seq<BaseTable>
    /** The queries received so far, in order. */
    var queries: seq<QuerySnapshot>

    constructor (fetch: string -> BaseTable, existing: set<string>)
      ensures this.fetch == fetch && this.existing == existing
      ensures committed == [] && queries == []
    {
      this.fetch := fetch;
      this.existing := existing;
      committed := [];
      queries := [];
    }

    /** `has_table`. */
    predicate HasTable(name: string)
      reads this
    {
      name in existing
    }

    /** `commit`: records the table. */
    method Commit(table: BaseTable)
      modifies this`committed
      ensures committed == old(committed) + [table]
    {
      committed := committed + [table];
    }

    /** `query`: records the builder's contents. */
    method Query(query: QueryBuilder)
      modifies this`queries
      ensures queries == old(queries) + [query.Snapshot()]
    {
      queries := queries + [query.Snapshot()];
    }
  }

  class Manager {
    const schema: SchemaBackend

    constructor (schema: SchemaBackend)
      ensures this.schema == schema
    {
      this.schema := schema;
    }

    /** `has_table`: asks the schema manager. */
    method HasTable(name: string) returns (b: bool)
      ensures b <==> name in schema.existing
    {
      b := schema.HasTable(name);
    }

    /** `create`: when the table does not exist yet, fetches it, marks it
        new, lets the callback edit it and commits it; otherwise does
        nothing. */
    method Create(name: string, callback: BaseTable -> BaseTable)
      modifies schema`committed
      ensures schema.committed
              == old(schema.committed) + Commits(Created(schema.existing, schema.fetch, callback, name))
    {
      var present := HasTable(name);
      if !present {
        var table := schema.fetch(name);
        table := table.(isNew := true);
        table := callback(table);
        schema.Commit(table);
      }
    }

    /** `update`: when the table exists, fetches it, marks it existing, lets
        the callback edit it and commits it; otherwise does nothing. */
    method Update(name: string, callback: BaseTable -> BaseTable)
      modifies schema`committed
      ensures schema.committed
              == old(schema.committed) + Commits(Updated(schema.existing, schema.fetch, callback, name))
    {
      var present := HasTable(name);
      if present {
        var table := schema.fetch(name);
        table := table.(isNew := false);
        table := callback(table);
        schema.Commit(table);
      }
    }

    /** `tables`: a fresh builder over the tables, the callback's clauses
        added in order, and the builder handed to the schema manager. */
    method Tables(tables: seq<string>, callback: seq<WhereJoinOperator>)
      modifies schema`queries
      ensures schema.queries == old(schema.queries) + [Built(tables, callback)]
    {
      var query := new QueryBuilder(tables);
      for i := 0 to |callback|
        invariant query.Snapshot() == Built(tables, callback[..i])
        invariant schema.queries == old(schema.queries)
      {
        query.Where(callback[i]);
        assert callback[..i + 1] == callback[..i] + [callback[i]];
      }
      assert callback[..|callback|] == callback;
      schema.Query(query);
    }

    /** `table`: `tables` over the one table. */
    method Table(table: string, callback: seq<WhereJoinOperator>)
      modifies schema`queries
      ensures schema.queries == old(schema.queries) + [Built([table], callback)]
    {
      Tables([table], callback);
    }

    /** `insert`: a fresh, empty record for the table. */
    method Insert(name: string) returns (record: SaveRecord)
      ensures fresh(record)
      ensures record.table == name && record.columns == map[]
    {
      record := new SaveRecord(name);
    }
  }
}
