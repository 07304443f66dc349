/** The recording list of src/components/RecordList.tsx: which item is
    highlighted, and the confirmation dialog that stands between an item's
    delete button and the `onDelete` callback.

    `handleConfirmDelete` awaits `onDelete`; it is modelled as two steps,
    the part before the await (`ConfirmBegun`) and the part after it settles
    (`ConfirmSettled`), so that the dialog can be closed while a deletion is
    in progress, as the component allows. */
module RecordList {
  import opened Types

  /** An item is active exactly when the selected id is its id; with no
      selection (`null` or absent) none is. */
  function ActiveFlags(records: seq<Recording>, selectedId: Option<int>): (r: seq<bool>)
    ensures |r| == |records|
    ensures forall i :: 0 <= i < |records| ==> (r[i] <==> selectedId == Some(records[i].id))
  {
    seq(|records|, i requires 0 <= i < |records| => selectedId == Some(records[i].id))
  }

  /** Keys of a list as loaded from the store are distinct. */
  predicate DistinctIds(records: seq<Recording>)
  {
    forall i, j :: 0 <= i < j < |records| ==> records[i].id != records[j].id
  }

  /** With distinct ids at most one item is highlighted, and with no
      selection none is. */
  lemma AtMostOneActive(records: seq<Recording>, selectedId: Option<int>)
    requires DistinctIds(records)
    ensures forall i, j ::
      0 <= i < |records| && 0 <= j < |records| && ActiveFlags(records, selectedId)[i] && ActiveFlags(records, selectedId)[j]
      ==> i == j
    ensures selectedId.None? ==> forall i :: 0 <= i < |records| ==> !ActiveFlags(records, selectedId)[i]
  {
  }

  // ---------------------------------------------------------------------
  // The delete dialog.

  /** `pendingDelete`, `isDeleteDialogOpen` and `isDeleting`. */
  datatype Dialog = Dialog(pending: Option<Recording>, open: bool, deleting: bool)

  const Closed: Dialog := Dialog(None, false, false)

  /** `handleRequestDelete`, what an item's delete button calls: the record
      is only remembered and the dialog opened; nothing is deleted. */
  function Requested(d: Dialog, rec: Recording): (r: Dialog)
    ensures r.pending == Some(rec) && r.open
    ensures r.deleting == d.deleting
  {
    d.(pending := Some(rec), open := true)
  }

  /** `handleDialogOpenChange`: the dialog takes the new open state; closing
      it forgets the pending record unless a deletion is in progress. */
  function OpenChanged(d: Dialog, open: bool): (r: Dialog)
    ensures r.open == open && r.deleting == d.deleting
    ensures r.pending == None <==> d.pending == None || (!open && !d.deleting)
    ensures r.pending != None ==> r.pending == d.pending
  {
    var d' := d.(open := open);
    if !open && d.pending.Some? && !d.deleting then d'.(pending := None) else d'
  }

  /** `handleCancelDelete`: the same as closing the dialog. */
  function Cancelled(d: Dialog): (r: Dialog)
    ensures !r.open
    ensures d.deleting ==> r.pending == d.pending
    ensures !d.deleting ==> r.pending == None
  {
    OpenChanged(d, false)
  }

  /** The start of `handleConfirmDelete`: with no pending record nothing
      happens; otherwise the deletion is marked in progress and `onDelete`
      is called with the pending record (the second component). */
  function ConfirmBegun(d: Dialog): (r: (Dialog, Option<Recording>))
    ensures d.pending.None? ==> r == (d, None)
    ensures d.pending.Some? ==> r.0 == d.(deleting := true) && r.1 == d.pending
  {
    if d.pending.None? then (d, None) else (d.(deleting := true), d.pending)
  }

  /** The end of `handleConfirmDelete`, once `onDelete` has settled: on
      success the pending record is forgotten and the dialog closed; on
      failure both stay; either way the deletion is no longer in progress. */
  function ConfirmSettled(d: Dialog, succeeded: bool): (r: Dialog)
    ensures !r.deleting
    ensures succeeded ==> r.pending == None && !r.open
    ensures !succeeded ==> r.pending == d.pending && r.open == d.open
  {
    if succeeded then Dialog(None, false, false) else d.(deleting := false)
  }

  /** A whole confirmation with nothing in between its two steps: `onDelete`
      gets the pending record once; afterwards no deletion is in progress,
      and the dialog is back to closed on success or unchanged on failure. */
  lemma ConfirmRoundTrip(d: Dialog, succeeded: bool)
    requires !d.deleting
    requires d.pending.Some?
    ensures ConfirmBegun(d).1 == d.pending
    ensures succeeded ==> ConfirmSettled(ConfirmBegun(d).0, succeeded) == Closed
    ensures !succeeded ==> ConfirmSettled(ConfirmBegun(d).0, succeeded) == d
  {
  }

  /** Closing the dialog while the deletion runs keeps the pending record;
      the deletion's outcome then decides as usual. */
  lemma CloseWhileDeleting(d: Dialog, succeeded: bool)
    requires d.pending.Some? && !d.deleting
    ensures OpenChanged(ConfirmBegun(d).0, false).pending == d.pending
    ensures ConfirmSettled(OpenChanged(ConfirmBegun(d).0, false), succeeded).pending ==
      (if succeeded then None else d.pending)
  {
  }

  class RecordListView {
    var pendingDelete: Option<Recording>
    var isDeleteDialogOpen: bool
    var isDeleting: bool

    ghost function State(): Dialog
      reads this
    {
      Dialog(pendingDelete, isDeleteDialogOpen, isDeleting)
    }

    constructor ()
      ensures State() == Closed
    {
      pendingDelete := None;
      isDeleteDialogOpen := false;
      isDeleting := false;
    }

    method HandleRequestDelete(rec: Recording)
      modifies this
      ensures State() == Requested(old(State()), rec)
    {
      pendingDelete := Some(rec);
      isDeleteDialogOpen := true;
    }

    method HandleDialogOpenChange(open: bool)
      modifies this
      ensures State() == OpenChanged(old(State()), open)
    {
      isDeleteDialogOpen := open;
      if !open && pendingDelete.Some? && !isDeleting {
        pendingDelete := None;
      }
    }

    method HandleCancelDelete()
      modifies this
      ensures State() == Cancelled(old(State()))
    {
      HandleDialogOpenChange(false);
    }

    /** Up to the await: returns the record `onDelete` is called with. */
    method HandleConfirmDelete() returns (target: Option<Recording>)
      modifies this
      ensures (State(), target) == ConfirmBegun(old(State()))
    {
      if pendingDelete.None? {
        return None;
      }
      isDeleting := true;
      target := pendingDelete;
    }

    /** After the await: `succeeded` is whether `onDelete` resolved. */
    method ConfirmDeleteSettled(succeeded: bool)
      modifies this
      ensures State() == ConfirmSettled(old(State()), succeeded)
    {
      if succeeded {
        pendingDelete := None;
        isDeleteDialogOpen := false;
      }
      isDeleting := false;
    }
  }
}
