/** The receiver's parcel table of
    `src/components/modules/receiver/IncomingParcels.tsx`: its filter, the
    delivery estimate it shows, and the delivery confirmation dialog. */
module IncomingParcels {
  import opened Common
  import opened Parcels

  /** A parcel stays in the list iff the lower-cased term occurs in its
      tracking id, sender name or parcel type, and the status filter is
      "all" or the parcel's status name. */
  predicate ReceiverKeeps(term: string, statusFilter: string, p: Parcel) {
    var t := Lower(term);
    && (Includes(Lower(p.trackingId), t) || Includes(Lower(p.sender.name), t) || Includes(Lower(p.parcelType), t))
    && (statusFilter == "all" || StatusName(p.status) == statusFilter)
  }

  /** `filteredParcels`: the kept parcels in list order, never more than
      the list ("Showing n of m" has n at most m). */
  function ReceiverFilter(parcels: seq<Parcel>, term: string, statusFilter: string): (r: seq<Parcel>)
    ensures |r| <= |parcels|
    ensures forall p :: p in r <==> p in parcels && ReceiverKeeps(term, statusFilter, p)
  {
    var r := Filter(parcels, p => ReceiverKeeps(term, statusFilter, p));
    forall p ensures p in r <==> p in parcels && ReceiverKeeps(term, statusFilter, p) {
      FilterMembership(parcels, p => ReceiverKeeps(term, statusFilter, p), p);
    }
    r
  }

  /** `canConfirmDelivery`. */
  predicate CanConfirm(p: Parcel) {
    p.status == OutForDelivery
  }

  /** Only a parcel out for delivery can be confirmed: a status-name test
      and the datatype test agree. */
  lemma CanConfirmByName(p: Parcel)
    ensures CanConfirm(p) <==> StatusName(p.status) == "OUT_FOR_DELIVERY"
  {
    StatusNameInjective(p.status, OutForDelivery);
  }

  /** The delivery estimate shown: the parcel's own estimate, else three
      days after creation; `None` when neither date exists (the page then
      fails to render the row). */
  function DisplayedEta(p: Parcel): (eta: Option<int>)
    ensures p.estimatedDelivery.Some? ==> eta == p.estimatedDelivery
    ensures p.estimatedDelivery.None? && p.createdAt.Some? ==> eta == Some(p.createdAt.value + THREE_DAYS_MS)
    ensures eta.None? <==> p.estimatedDelivery.None? && p.createdAt.None?
  {
    if p.estimatedDelivery.Some? then p.estimatedDelivery
    else if p.createdAt.Some? then Some(p.createdAt.value + THREE_DAYS_MS)
    else None
  }

  /** The fallback estimate always lies after creation. */
  lemma DisplayedEtaAfterCreation(p: Parcel)
    requires p.estimatedDelivery.None? && p.createdAt.Some?
    ensures DisplayedEta(p).Some? && DisplayedEta(p).value > p.createdAt.value
  {
  }

  /** The confirmation request. The page passes `selectedParcel.id`, a
      field `Parcel` does not have (its id is `_id`), so the parcel id is
      always absent. */
  datatype ConfirmRequest = ConfirmRequest(parcelId: Option<string>, note: string)

  /** The names `src/lib/parcels.ts` exports. */
  const PARCELS_EXPORTS: set<string> := {
    "IParcelStatus", "Parcel", "ParcelStatusUpdate", "CreateParcelSchema",
    "getStatusColor", "getStatusLabel", "calculateDeliveryCost", "generateTrackingId" }

  /** The function the page imports from `src/lib/parcels.ts` to confirm a
      delivery. */
  const CONFIRM_CALLEE := "confirmDelivery"

  /** Whether awaiting a call to the imported `callee` raises. A name the
      module does not export is bound to `undefined` wherever the import is
      not refused outright, and calling `undefined` throws before any
      request leaves; an exported one raises when the server refuses. */
  predicate CallRaises(callee: string, serverRefused: bool) {
    callee !in PARCELS_EXPORTS || serverRefused
  }

  /** The confirmation call raises whatever the server would answer. */
  lemma ConfirmCallAlwaysRaises(serverRefused: bool)
    ensures CONFIRM_CALLEE !in PARCELS_EXPORTS
    ensures CallRaises(CONFIRM_CALLEE, serverRefused)
  {
  }

  /** The confirmation dialog's state. */
  class IncomingParcelsState {
    var selectedParcel: Option<Parcel>
    var isConfirming: bool
    var confirmationNote: string
    var showConfirmDialog: bool

    constructor ()
      ensures selectedParcel.None? && !isConfirming && confirmationNote == "" && !showConfirmDialog
    {
      selectedParcel, isConfirming, confirmationNote, showConfirmDialog := None, false, "", false;
    }

    /** The Confirm button, which exists only for a confirmable parcel. */
    method OpenConfirmDialog(p: Parcel)
      requires CanConfirm(p)
      modifies this`selectedParcel, this`showConfirmDialog
      ensures selectedParcel == Some(p) && showConfirmDialog
    {
      selectedParcel := Some(p);
      showConfirmDialog := true;
    }

    /** The dialog's Cancel button. */
    method CancelConfirm()
      modifies this`showConfirmDialog, this`confirmationNote
      ensures !showConfirmDialog && confirmationNote == ""
    {
      showConfirmDialog, confirmationNote := false, "";
    }

    /** `handleConfirmDelivery` up to the call: the flag goes up and the
      note is sent. */
    method StartConfirm() returns (sent: ConfirmRequest)
      requires selectedParcel.Some?
      modifies this`isConfirming
      ensures isConfirming
      ensures sent == ConfirmRequest(None, confirmationNote)
    {
      isConfirming := true;
      sent := ConfirmRequest(None, confirmationNote);
    }

    /** `handleConfirmDelivery` after the call: on success the note is
      cleared and the dialog closed, on failure both are kept; the flag
      drops either way. */
    method FinishConfirm(raised: bool)
      requires isConfirming
      modifies this`isConfirming, this`confirmationNote, this`showConfirmDialog
      ensures !isConfirming
      ensures raised ==> confirmationNote == old(confirmationNote) && showConfirmDialog == old(showConfirmDialog)
      ensures !raised ==> confirmationNote == "" && !showConfirmDialog
    {
      if !raised {
        confirmationNote := "";
        showConfirmDialog := false;
      }
      isConfirming := false;
    }

    /** `handleConfirmDelivery` as written: the called `confirmDelivery` is
      not exported, so the call raises whatever the server would answer;
      the dialog stays open with its note and the failure toast shows. */
    method HandleConfirmAsWritten(serverRefused: bool) returns (sent: ConfirmRequest)
      requires selectedParcel.Some?
      modifies this`isConfirming, this`confirmationNote, this`showConfirmDialog
      ensures sent == ConfirmRequest(None, old(confirmationNote))
      ensures !isConfirming
      ensures confirmationNote == old(confirmationNote) && showConfirmDialog == old(showConfirmDialog)
    {
      sent := StartConfirm();
      ConfirmCallAlwaysRaises(serverRefused);
      FinishConfirm(CallRaises(CONFIRM_CALLEE, serverRefused));
    }

    /** `handleConfirmDelivery` calling a confirmation endpoint that exists:
      a confirmation the server accepts clears the note and closes the
      dialog, a refused one keeps both. */
    method HandleConfirm(serverRefused: bool) returns (sent: ConfirmRequest)
      requires selectedParcel.Some?
      modifies this`isConfirming, this`confirmationNote, this`showConfirmDialog
      ensures sent == ConfirmRequest(None, old(confirmationNote))
      ensures !isConfirming
      ensures !serverRefused ==> confirmationNote == "" && !showConfirmDialog
      ensures serverRefused ==> confirmationNote == old(confirmationNote) && showConfirmDialog == old(showConfirmDialog)
    {
      sent := StartConfirm();
      FinishConfirm(serverRefused);
    }
  }
}
