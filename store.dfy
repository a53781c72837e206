/**
 * The external persistence store, seen from the handlers: one table of
 * records that only grows. Whether a write is accepted is decided outside the
 * model and given as a parameter; an accepted record gets its position as id.
 */
module Store {
  import opened Common

  class Table<R> {
    /** The records written so far, oldest first. */
    var rows: seq<R>

    constructor ()
      ensures rows == []
    {
      rows := [];
    }

    /**
     * `create({ data })`: an accepted write appends exactly `data` and yields
     * its id; a rejected write changes nothing and throws.
     */
    method Create(data: R, accepted: bool) returns (id: Option<nat>)
      modifies this
      ensures accepted ==> rows == old(rows) + [data] && id == Some(|old(rows)|)
      ensures !accepted ==> rows == old(rows) && id == None
    {
      if accepted {
        id := Some(|rows|);
        rows := rows + [data];
      } else {
        id := None;
      }
    }
  }
}
