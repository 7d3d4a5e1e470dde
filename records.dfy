/**
 * The clients table (types/index.ts) and the store that holds it. The store
 * is the hosted database seen as a map from row id to row; every other
 * module only reads rows from it or asks it to insert or delete one.
 */
module Records {
  import opened Wrappers

  /**
   * A client row. `None` is a column that holds SQL `NULL`, which the
   * database client hands over as `null`; the list filter reads name,
   * e-mail and company with `?.` for that reason.
   */
  datatype Client = Client(
    id: string,
    userId: string,
    fullName: Option<string>,
    email: Option<string>,
    company: Option<string>,
    phone: Option<string>,
    notes: Option<string>)

  /** The clients table, keyed by row id. */
  class ClientTable {
    var rows: map<string, Client>

    constructor ()
      ensures rows == map[]
    {
      rows := map[];
    }

    /** `insert` of one row under the id the database assigned. */
    method Insert(id: string, c: Client)
      modifies this
      ensures rows == old(rows)[id := c]
    {
      rows := rows[id := c];
    }

    /** `delete().eq("id", id)`: removes the row if there is one. */
    method Delete(id: string)
      modifies this
      ensures rows == old(rows) - {id}
      ensures id !in rows
    {
      rows := rows - {id};
    }
  }
}
