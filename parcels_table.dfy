/** The sender's parcel table of `src/components/modules/sender/ParcelsTable.tsx`:
    its search and status filter, the "Showing n of m" line and the
    cancellation handler. */
module ParcelsTable {
  import opened Common
  import opened Parcels

  // ---------------------------------------------------------------------
  // The filter
  // ---------------------------------------------------------------------

  /** The search box: the lower-cased term occurs in the tracking id, the
      receiver's name or the receiver's email (an absent email is the empty
      string, which holds only the empty term, as does the name). */
  predicate MatchesSearch(term: string, p: Parcel) {
    var t := Lower(term);
    Includes(Lower(p.trackingId), t) || Includes(Lower(p.receiver.name), t) || Includes(Lower(p.receiver.email), t)
  }

  /** The status select, as written: "all", or the option value equal to
      the parcel's status string. */
  predicate MatchesStatusAsWritten(statusFilter: string, p: Parcel) {
    statusFilter == "all" || StatusName(p.status) == statusFilter
  }

  /** An empty array literal is an object, and every object is truthy. */
  const EMPTY_ARRAY_TRUTHY: bool := true

  /** The filter callback as written: `matchesSearch && matchesStatus || []`,
      where `||` binds looser than `&&`. */
  predicate KeepAsWritten(term: string, statusFilter: string, p: Parcel) {
    (MatchesSearch(term, p) && MatchesStatusAsWritten(statusFilter, p)) || EMPTY_ARRAY_TRUTHY
  }

  /** `filteredParcels` as written. */
  function SenderFilterAsWritten(parcels: seq<Parcel>, term: string, statusFilter: string): (r: seq<Parcel>)
    ensures |r| <= |parcels|
  {
    Filter(parcels, p => KeepAsWritten(term, statusFilter, p))
  }

  /** As written the table ignores both the search box and the status
      select: whatever is typed or chosen, every parcel is listed, in
      order. */
  lemma SenderFilterAsWrittenKeepsAll(parcels: seq<Parcel>, term: string, statusFilter: string)
    ensures SenderFilterAsWritten(parcels, term, statusFilter) == parcels
  {
    FilterAcceptingAll(parcels, p => KeepAsWritten(term, statusFilter, p));
  }

  /** The values of the status select, "all" first. */
  const STATUS_OPTIONS: seq<string> :=
    ["all", "pending", "confirmed", "picked-up", "in-transit", "out-for-delivery", "delivered", "cancelled"]

  /** As written, no option but "all" equals any status string: the
      options are lower-case and hyphenated, the statuses upper-case. */
  lemma StatusOptionsNeverMatch(statusFilter: string, p: Parcel)
    requires statusFilter in STATUS_OPTIONS[1..]
    ensures !MatchesStatusAsWritten(statusFilter, p)
  {
    Parcels.StatusNameShape(p.status);
    assert 'a' <= statusFilter[0] <= 'z';
  }

  /** The status an option value stands for; "confirmed" names no status
      the parcels carry, and "all" is not a status. */
  function OptionStatus(option: string): (r: Option<Status>)
    ensures r.Some? ==> option in STATUS_OPTIONS[1..]
  {
    match option
    case "pending" => Some(Pending)
    case "picked-up" => Some(PickedUp)
    case "in-transit" => Some(InTransit)
    case "out-for-delivery" => Some(OutForDelivery)
    case "delivered" => Some(Delivered)
    case "cancelled" => Some(Cancelled)
    case _ => None
  }

  /** The status select as evidently meant: "all", or the option standing
      for the parcel's status. */
  predicate MatchesStatus(statusFilter: string, p: Parcel) {
    statusFilter == "all" || OptionStatus(statusFilter) == Some(p.status)
  }

  /** The filter callback as evidently meant. */
  predicate SenderKeeps(term: string, statusFilter: string, p: Parcel) {
    MatchesSearch(term, p) && MatchesStatus(statusFilter, p)
  }

  /** `filteredParcels` as evidently meant: exactly the parcels that match
      both the search and the status. */
  function SenderFilter(parcels: seq<Parcel>, term: string, statusFilter: string): (r: seq<Parcel>)
    ensures |r| <= |parcels|
    ensures forall p :: p in r <==> p in parcels && MatchesSearch(term, p) && MatchesStatus(statusFilter, p)
  {
    var r := Filter(parcels, p => SenderKeeps(term, statusFilter, p));
    forall p ensures p in r <==> p in parcels && SenderKeeps(term, statusFilter, p) {
      FilterMembership(parcels, p => SenderKeeps(term, statusFilter, p), p);
    }
    r
  }

  /** Once corrected, each option keeps the parcels of its own status and
      no other; the empty term with "all" lists every parcel. */
  lemma SenderFilterSelects(parcels: seq<Parcel>, statusFilter: string, s: Status)
    requires OptionStatus(statusFilter) == Some(s)
    ensures forall p :: p in SenderFilter(parcels, "", statusFilter) <==> p in parcels && p.status == s
    ensures SenderFilter(parcels, "", "all") == parcels
  {
    forall p | p in parcels
      ensures MatchesSearch("", p)
    {
      IncludesEmpty(Lower(p.trackingId));
    }
    FilterAcceptingAll(parcels, p => SenderKeeps("", "all", p));
  }

  // ---------------------------------------------------------------------
  // "Showing n of m"
  // ---------------------------------------------------------------------

  /** The counts of the footer line, shown only when the filtered list is
      not empty. */
  function ShowingCounts(filtered: seq<Parcel>, parcels: seq<Parcel>): (r: Option<(nat, nat)>)
    ensures r.Some? <==> |filtered| > 0
    ensures r.Some? ==> r.value == (|filtered|, |parcels|)
  {
    if |filtered| > 0 then Some((|filtered|, |parcels|)) else None
  }

  /** As written the footer always reads "Showing m of m" for a non-empty
      list, and is hidden for an empty one. */
  lemma ShowingAllAsWritten(parcels: seq<Parcel>, term: string, statusFilter: string)
    ensures var r := ShowingCounts(SenderFilterAsWritten(parcels, term, statusFilter), parcels);
      (r.Some? <==> |parcels| > 0) && (r.Some? ==> r.value.0 == r.value.1)
  {
    SenderFilterAsWrittenKeepsAll(parcels, term, statusFilter);
  }

  // ---------------------------------------------------------------------
  // Cancelling
  // ---------------------------------------------------------------------

  const CANCELLED_TOAST := "Parcel cancelled"
  const CANCEL_FAILED_TOAST := "Failed to cancel parcel"

  /** The table's own state. */
  class ParcelsTableState {
    var searchTerm: string
    var statusFilter: string
    var selectedParcel: Option<Parcel>
    var isCancelling: bool

    constructor ()
      ensures searchTerm == "" && statusFilter == "all" && selectedParcel.None? && !isCancelling
    {
      searchTerm, statusFilter, selectedParcel, isCancelling := "", "all", None, false;
    }

    /** `handleCancelParcel` up to the call: the cancel buttons are
      disabled and the parcel's id is sent. The button is offered for
      every parcel, whatever its status. */
    method StartCancel(p: Parcel) returns (sentId: string)
      modifies this`isCancelling
      ensures isCancelling && sentId == p.id
    {
      isCancelling := true;
      sentId := p.id;
    }

    /** `handleCancelParcel` after the call. The mutation resolves also
      when the server answers with an error, so the success toast and the
      parent's refresh follow every call that did not raise; the buttons
      come back either way. */
    method FinishCancel(response: CallResult) returns (toast: string, refreshParent: bool)
      modifies this`isCancelling
      ensures !isCancelling
      ensures refreshParent <==> response != Raised
      ensures toast == (if response == Raised then CANCEL_FAILED_TOAST else CANCELLED_TOAST)
    {
      if response == Raised {
        toast, refreshParent := CANCEL_FAILED_TOAST, false;
      } else {
        toast, refreshParent := CANCELLED_TOAST, true;
      }
      isCancelling := false;
    }
  }
}
