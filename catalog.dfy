/**
 * What the three list managers share: the fetch outcome they load from, and the item object
 * with its edit lifecycle (`isEditing`, `editedData`, `originalDataCopy`).
 */
module Catalog {
  import opened JsValues

  /** The outcome of fetching a `/data/<entity>.json` fixture: the parsed array, or the error thrown. */
  datatype Fetch = Fetched(data: seq<Record>) | FetchFailed(message: string)

  /**
   * One list item.  `fields` holds its domain fields; the three transient members are kept
   * apart from them, and `editedData` and `originalDataCopy` hold domain fields only.
   */
  class Entry {
    var fields: Record
    var isEditing: bool
    var editedData: Record
    var originalDataCopy: Record

    /** The item as load and add create it: not editing, draft and snapshot equal to its fields. */
    constructor (r: Record)
      ensures fields == r && Idle()
    {
      fields := r;
      isEditing := false;
      editedData := r;
      originalDataCopy := r;
    }

    predicate Idle()
      reads this
    {
      !isEditing && editedData == fields && originalDataCopy == fields
    }

    /** The snapshot taken by the last start or save is the committed state. */
    predicate SnapshotCurrent()
      reads this
    {
      originalDataCopy == fields
    }

    /** Start editing: snapshot the item and copy it into the draft. */
    method StartEditing()
      modifies this
      ensures fields == old(fields) && isEditing
      ensures originalDataCopy == old(fields) && editedData == old(fields)
    {
      originalDataCopy := fields;
      editedData := fields;
      isEditing := true;
    }

    /**
     * Cancel editing: the draft is restored from the snapshot and the committed fields are
     * untouched, so after a start the draft is the pre-edit state again.
     */
    method CancelEditing()
      modifies this
      ensures fields == old(fields) && originalDataCopy == old(originalDataCopy) && !isEditing
      ensures editedData == old(originalDataCopy)
      ensures old(SnapshotCurrent()) ==> editedData == fields && SnapshotCurrent()
    {
      editedData := originalDataCopy;
      isEditing := false;
    }
  }

  /** The domain fields of a list of items, in list order. */
  function Fields(es: seq<Entry>): (rs: seq<Record>)
    reads es
  {
    seq(|es|, i reads es requires 0 <= i < |es| => es[i].fields)
  }

  /** `data.map(...)` building one fresh, idle item per record. */
  method NewEntries(rs: seq<Record>) returns (es: seq<Entry>)
    ensures Fields(es) == rs
    ensures forall i :: 0 <= i < |es| ==> fresh(es[i]) && es[i].Idle()
  {
    es := [];
    var k := 0;
    while k < |rs|
      invariant 0 <= k <= |rs| && |es| == k
      invariant forall i :: 0 <= i < k ==> fresh(es[i]) && es[i].Idle() && es[i].fields == rs[i]
    {
      var e := new Entry(rs[k]);
      es := es + [e];
      k := k + 1;
    }
  }
}
