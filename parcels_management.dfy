/** The admin parcel table of
    `src/components/modules/Admin/ParcelsManagement.tsx`: its search and
    status filter, the status-update dialog that appends to a parcel's
    history, and the personnel-assignment dialog. */
module ParcelsManagement {
  import opened Common
  import opened Parcels
  import opened DeliveryMan

  // ---------------------------------------------------------------------
  // Filtering
  // ---------------------------------------------------------------------

  /** A parcel stays in the list iff the lower-cased term occurs in its
      tracking id, sender name or sender e-mail, and the status filter is
      "all" or the parcel's status name. */
  predicate AdminKeeps(term: string, statusFilter: string, p: Parcel) {
    var t := Lower(term);
    && (Includes(Lower(p.trackingId), t) || Includes(Lower(p.sender.name), t) || Includes(Lower(p.sender.email), t))
    && (statusFilter == "all" || StatusName(p.status) == statusFilter)
  }

  /** `filteredParcels`: the kept parcels, in list order. */
  function AdminFilter(parcels: seq<Parcel>, term: string, statusFilter: string): (r: seq<Parcel>)
    ensures |r| <= |parcels|
    ensures forall p :: p in r <==> p in parcels && AdminKeeps(term, statusFilter, p)
  {
    var r := Filter(parcels, p => AdminKeeps(term, statusFilter, p));
    forall p ensures p in r <==> p in parcels && AdminKeeps(term, statusFilter, p) {
      FilterMembership(parcels, p => AdminKeeps(term, statusFilter, p), p);
    }
    r
  }

  /** An empty search with the "all" filter shows every parcel. */
  lemma AdminFilterShowsAll(parcels: seq<Parcel>)
    ensures AdminFilter(parcels, "", "all") == parcels
  {
    forall i | 0 <= i < |parcels| ensures AdminKeeps("", "all", parcels[i]) {
      IncludesEmpty(Lower(parcels[i].trackingId));
    }
    FilterAcceptingAll(parcels, p => AdminKeeps("", "all", p));
  }

  // ---------------------------------------------------------------------
  // Requests
  // ---------------------------------------------------------------------

  /** The statuses the update dialog offers. */
  const OFFERED_STATUSES: set<string> :=
    {"PENDING", "APPROVED", "PICKED_UP", "IN_TRANSIT", "OUT_FOR_DELIVERY", "DELIVERED", "CANCELLED"}

  /** The fields of a parcel an update request carries; absent fields are
      left as they are. */
  datatype ParcelPatch = ParcelPatch(
    status: Option<string>, statusHistory: Option<seq<HistoryEntry>>, deliveryManId: Option<string>)

  /** The history entry an admin's status update adds: no timestamp. */
  function UpdateEntry(newStatus: string, note: string, location: string, userId: string): HistoryEntry {
    HistoryEntry(newStatus, "", location, userId, note)
  }

  /** The patch `handleUpdateStatus` sends: the new status, and the old
      history with one entry appended. */
  function StatusPatch(p: Parcel, newStatus: string, note: string, location: string, userId: string): ParcelPatch {
    ParcelPatch(Some(newStatus), Some(p.statusHistory + [UpdateEntry(newStatus, note, location, userId)]), None)
  }

  /** The update only appends: the old history is an unchanged prefix,
      exactly one entry is added, it carries the new status, the note, the
      location and the admin's id, and the patch's status is that entry's. */
  lemma StatusPatchAppends(p: Parcel, newStatus: string, note: string, location: string, userId: string)
    ensures var patch := StatusPatch(p, newStatus, note, location, userId);
            && patch.status.Some? && patch.statusHistory.Some? && patch.deliveryManId.None?
            && var h := patch.statusHistory.value;
            && |h| == |p.statusHistory| + 1
            && h[..|p.statusHistory|] == p.statusHistory
            && h[|h| - 1].status == patch.status.value == newStatus
            && h[|h| - 1].note == note && h[|h| - 1].location == location && h[|h| - 1].updatedBy == userId
  {
  }

  /** Any offered status can follow any status: the new status's name
      always ends the history the patch sends, whatever the parcel's
      current status. */
  lemma AnyOfferedStatusAccepted(p: Parcel, s: Status, note: string, location: string, userId: string)
    requires StatusName(s) in OFFERED_STATUSES
    ensures var patch := StatusPatch(p, StatusName(s), note, location, userId);
            HistoryMatchesStatus(s, patch.statusHistory.value)
  {
  }

  /** Re-submitting the preselected current status of a consistent parcel
      gives a history whose last two entries carry the same status. */
  lemma ResubmitDuplicates(p: Parcel, note: string, location: string, userId: string)
    requires HistoryMatchesStatus(p.status, p.statusHistory)
    ensures var h := StatusPatch(p, StatusName(p.status), note, location, userId).statusHistory.value;
            |h| >= 2 && h[|h| - 2].status == h[|h| - 1].status
  {
  }

  /** The patch `handleAssignPersonnel` sends: only the delivery person. */
  function AssignPatch(personnelId: string): ParcelPatch {
    ParcelPatch(None, None, Some(personnelId))
  }

  /** An assignment never touches status or history. */
  lemma AssignPatchOnlyPersonnel(personnelId: string)
    ensures AssignPatch(personnelId).status.None? && AssignPatch(personnelId).statusHistory.None?
    ensures AssignPatch(personnelId).deliveryManId == Some(personnelId)
  {
  }

  /** The people the assignment dialog offers: those AVAILABLE, in list
      order; nothing while the list has not loaded. */
  function AssignablePersonnel(people: Option<seq<Person>>): (r: seq<Person>)
    ensures people.None? ==> r == []
    ensures people.Some? ==> |r| <= |people.value|
    ensures forall q :: q in r <==> people.Some? && q in people.value && q.status == Some(Available)
  {
    if people.None? then []
    else
      var r := Filter(people.value, IsAvailable);
      forall q ensures q in r <==> q in people.value && q.status == Some(Available) {
        FilterMembership(people.value, IsAvailable, q);
      }
      r
  }

  // ---------------------------------------------------------------------
  // The component's state
  // ---------------------------------------------------------------------

  /** The dialogs' state. `newStatus` and `selectedPersonnel` are "" when
      nothing is chosen. */
  class ParcelsManagementState {
    var selectedParcel: Option<Parcel>
    var isUpdating: bool
    var showUpdateDialog: bool
    var showAssignDialog: bool
    var newStatus: string
    var updateNote: string
    var updateLocation: string
    var selectedPersonnel: string

    constructor ()
      ensures selectedParcel.None? && !isUpdating && !showUpdateDialog && !showAssignDialog
      ensures newStatus == "" && updateNote == "" && updateLocation == "" && selectedPersonnel == ""
    {
      selectedParcel := None;
      isUpdating, showUpdateDialog, showAssignDialog := false, false, false;
      newStatus, updateNote, updateLocation, selectedPersonnel := "", "", "", "";
    }

    /** The edit button: preselects the parcel's current status and clears
      the note; the location typed last time stays. */
    method OpenUpdateDialog(p: Parcel)
      modifies this
      ensures selectedParcel == Some(p) && newStatus == StatusName(p.status) && updateNote == ""
      ensures showUpdateDialog
      ensures updateLocation == old(updateLocation) && selectedPersonnel == old(selectedPersonnel)
      ensures isUpdating == old(isUpdating) && showAssignDialog == old(showAssignDialog)
    {
      selectedParcel := Some(p);
      newStatus := StatusName(p.status);
      updateNote := "";
      showUpdateDialog := true;
    }

    /** Choosing a status in the dialog, or typing a note or location. */
    method EditUpdate(status: string, note: string, location: string)
      requires status in OFFERED_STATUSES
      modifies this`newStatus, this`updateNote, this`updateLocation
      ensures newStatus == status && updateNote == note && updateLocation == location
    {
      newStatus, updateNote, updateLocation := status, note, location;
    }

    /** The update dialog's Cancel button: the dialog closes and the status
      and note are cleared; the location typed stays. */
    method CancelUpdate()
      modifies this`showUpdateDialog, this`newStatus, this`updateNote
      ensures !showUpdateDialog && newStatus == "" && updateNote == ""
    {
      showUpdateDialog, newStatus, updateNote := false, "", "";
    }

    /** The assignment dialog's Cancel button: the dialog closes and the
      chosen person is cleared. */
    method CancelAssign()
      modifies this`showAssignDialog, this`selectedPersonnel
      ensures !showAssignDialog && selectedPersonnel == ""
    {
      showAssignDialog, selectedPersonnel := false, "";
    }

    /** `handleUpdateStatus` for the signed-in admin `userId` ("" when the
      profile has no id): nothing is sent without a selected parcel and a
      status; otherwise the status patch is sent for the selected parcel,
      and a response with data closes the dialog and clears status and
      note, keeping the location. */
    method HandleUpdateStatus(userId: string, response: CallResult) returns (sent: Option<(string, ParcelPatch)>)
      modifies this
      ensures sent.Some? <==> old(selectedParcel).Some? && old(newStatus) != ""
      ensures sent.Some? ==> sent.value == (old(selectedParcel).value.id,
                StatusPatch(old(selectedParcel).value, old(newStatus), old(updateNote), old(updateLocation), userId))
      ensures if sent.Some? && response.WithData?
              then !showUpdateDialog && newStatus == "" && updateNote == ""
              else showUpdateDialog == old(showUpdateDialog) && newStatus == old(newStatus) && updateNote == old(updateNote)
      ensures selectedParcel == old(selectedParcel) && updateLocation == old(updateLocation)
      ensures isUpdating == old(isUpdating) && showAssignDialog == old(showAssignDialog)
      ensures selectedPersonnel == old(selectedPersonnel)
    {
      if selectedParcel.None? || newStatus == "" {
        return None;
      }
      var p := selectedParcel.value;
      sent := Some((p.id, StatusPatch(p, newStatus, updateNote, updateLocation, userId)));
      if response.WithData? {
        showUpdateDialog := false;
        newStatus := "";
        updateNote := "";
      }
    }

    /** The truck button: preselects the parcel's current delivery person
      ("" when it has none). */
    method OpenAssignDialog(p: Parcel)
      modifies this
      ensures selectedParcel == Some(p) && selectedPersonnel == p.deliveryManId.GetOr("")
      ensures showAssignDialog
      ensures newStatus == old(newStatus) && updateNote == old(updateNote) && updateLocation == old(updateLocation)
      ensures isUpdating == old(isUpdating) && showUpdateDialog == old(showUpdateDialog)
    {
      selectedParcel := Some(p);
      selectedPersonnel := p.deliveryManId.GetOr("");
      showAssignDialog := true;
    }

    /** Choosing a person in the assignment dialog. */
    method ChoosePersonnel(people: Option<seq<Person>>, q: Person)
      requires q in AssignablePersonnel(people)
      modifies this`selectedPersonnel
      ensures selectedPersonnel == q.id.GetOr("")
    {
      selectedPersonnel := q.id.GetOr("");
    }

    /** `handleAssignPersonnel` up to the request: refused without a parcel
      and a person; otherwise the flag is raised and the patch sent. */
    method StartAssign() returns (sent: Option<(string, ParcelPatch)>)
      modifies this`isUpdating
      ensures sent.Some? <==> selectedParcel.Some? && selectedPersonnel != ""
      ensures sent.Some? ==> sent.value == (selectedParcel.value.id, AssignPatch(selectedPersonnel)) && isUpdating
      ensures sent.None? ==> isUpdating == old(isUpdating)
    {
      if selectedParcel.None? || selectedPersonnel == "" {
        return None;
      }
      isUpdating := true;
      sent := Some((selectedParcel.value.id, AssignPatch(selectedPersonnel)));
    }

    /** `handleAssignPersonnel` after the request: unless it raised, the
      dialog closes and the choice is cleared; the flag drops either way. */
    method FinishAssign(response: CallResult)
      requires isUpdating
      modifies this`isUpdating, this`showAssignDialog, this`selectedPersonnel
      ensures !isUpdating
      ensures if response.Raised?
              then showAssignDialog == old(showAssignDialog) && selectedPersonnel == old(selectedPersonnel)
              else !showAssignDialog && selectedPersonnel == ""
    {
      if !response.Raised? {
        showAssignDialog := false;
        selectedPersonnel := "";
      }
      isUpdating := false;
    }
  }
}
