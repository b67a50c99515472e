/**
 * A record to be saved into a table: the table's name and a map from column
 * to value text, filled one column or many at a time. Saving reports one of
 * two paths: an update when the record carries an `internal_id`, an insert
 * otherwise; the report is returned rather than printed.
 */
module Save {
  /** The key whose presence marks a record as already stored. */
  const InternalId: string := "internal_id"

  /** What `save` does with a record. */
  datatype SavePath =
    | UpdatePath(id: string, table: string)
    | InsertPath(table: string)

  /** The path a record with these columns takes. */
  function PathFor(table: string, columns: map<string, string>): (p: SavePath)
    ensures p.table == table
    ensures p.UpdatePath? <==> InternalId in columns
    ensures p.UpdatePath? ==> p.id == columns[InternalId]
  {
    if InternalId in columns then UpdatePath(columns[InternalId], table) else InsertPath(table)
  }

  /** Setting `internal_id` turns any record into an update of that id. */
  lemma SettingIdUpdates(table: string, columns: map<string, string>, id: string)
    ensures PathFor(table, columns[InternalId := id]) == UpdatePath(id, table)
  {
  }

  /** Setting any other column leaves the path as it was. */
  lemma SettingOtherKeepsPath(table: string, columns: map<string, string>, column: string, value: string)
    requires column != InternalId
    ensures PathFor(table, columns[column := value]) == PathFor(table, columns)
  {
    assert (InternalId in columns[column := value]) == (InternalId in columns);
  }

  /** Merging many columns takes an update path from the merged map when it
      names an id, and otherwise keeps the old path. */
  lemma MergingPath(table: string, columns: map<string, string>, keyValues: map<string, string>)
    ensures InternalId in keyValues ==>
              PathFor(table, columns + keyValues) == UpdatePath(keyValues[InternalId], table)
    ensures InternalId !in keyValues ==>
              PathFor(table, columns + keyValues) == PathFor(table, columns)
  {
  }

  class SaveRecord {
    const table: string
    var columns: map<string, string>

    /** `new`: the table's name and no columns. */
    constructor (table: string)
      ensures this.table == table && columns == map[]
    {
      this.table := table;
      columns := map[];
    }

    /** `set`: the column now holds `value`, replacing any earlier value;
        every other column keeps its value. */
    method Set(column: string, value: string)
      modifies this`columns
      ensures columns == old(columns)[column := value]
      ensures column in columns && columns[column] == value
      ensures forall k :: k in old(columns) && k != column ==> k in columns && columns[k] == old(columns)[k]
      ensures columns.Keys == old(columns).Keys + {column}
    {
      columns := columns[column := value];
    }

    /** `set_many`: every given column holds its given value, replacing any
        earlier one; columns not given keep theirs. */
    method SetMany(keyValues: map<string, string>)
      modifies this`columns
      ensures columns == old(columns) + keyValues
      ensures forall k :: k in keyValues ==> k in columns && columns[k] == keyValues[k]
      ensures forall k :: k in old(columns) && k !in keyValues ==> k in columns && columns[k] == old(columns)[k]
      ensures columns.Keys == old(columns).Keys + keyValues.Keys
    {
      columns := columns + keyValues;
    }

    /** `save`: updates when the record carries `internal_id`, inserts
        otherwise; the record is left as it is. */
    method Save() returns (path: SavePath)
      ensures path == PathFor(table, columns)
      ensures path.UpdatePath? <==> InternalId in columns
    {
      if InternalId in columns {
        path := UpdatePath(columns[InternalId], table);
      } else {
        path := InsertPath(table);
      }
    }
  }
}
