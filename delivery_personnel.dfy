/** The admin's delivery-personnel page, `src/pages/Admin/AdminDeliveryPersonnel.tsx`:
    the search and status filter, the counters, the status badge, the
    status-change request and the add and edit dialogs with their form. */
module DeliveryPersonnel {
  import opened Common
  import opened DeliveryMan

  // ---------------------------------------------------------------------
  // The filter
  // ---------------------------------------------------------------------

  /** The search box: the lower-cased term occurs in the person's name or
      location. An absent name or location matches nothing, not even the
      empty term. */
  predicate MatchesSearch(term: string, q: Person) {
    var t := Lower(term);
    (q.name.Some? && Includes(Lower(q.name.value), t))
    || (q.location.Some? && Includes(Lower(q.location.value), t))
  }

  /** The status select: "all", or the person's status name. */
  predicate MatchesStatus(statusFilter: string, q: Person) {
    statusFilter == "all" || (q.status.Some? && DeliveryStatusName(q.status.value) == statusFilter)
  }

  predicate PersonKeeps(term: string, statusFilter: string, q: Person) {
    MatchesSearch(term, q) && MatchesStatus(statusFilter, q)
  }

  /** The rows of the table, `filteredPersonnel ?? []`: the people that
      match both the search and the status, in list order. */
  function ShownPersonnel(people: Option<seq<Person>>, term: string, statusFilter: string): (r: seq<Person>)
    ensures people.None? ==> r == []
    ensures |r| <= |people.GetOr([])|
    ensures forall q :: q in r <==> q in people.GetOr([]) && MatchesSearch(term, q) && MatchesStatus(statusFilter, q)
  {
    var ps := people.GetOr([]);
    var r := Filter(ps, q => PersonKeeps(term, statusFilter, q));
    forall q ensures q in r <==> q in ps && PersonKeeps(term, statusFilter, q) {
      FilterMembership(ps, q => PersonKeeps(term, statusFilter, q), q);
    }
    r
  }

  /** With an empty search and "all", the table lists exactly the people
      with a name or a location; a person with neither is never listed. */
  lemma EmptySearchShowsNamed(people: Option<seq<Person>>, q: Person)
    requires q in people.GetOr([])
    ensures q in ShownPersonnel(people, "", "all") <==> q.name.Some? || q.location.Some?
  {
    if q.name.Some? {
      IncludesEmpty(Lower(q.name.value));
    } else if q.location.Some? {
      IncludesEmpty(Lower(q.location.value));
    }
  }

  /** Choosing a status shows only people with that status. */
  lemma StatusFilterSelects(people: Option<seq<Person>>, term: string, s: DeliveryStatus, q: Person)
    requires q in ShownPersonnel(people, term, DeliveryStatusName(s))
    ensures q.status == Some(s)
  {
    DeliveryStatusNameInjective(q.status.value, s);
  }

  // ---------------------------------------------------------------------
  // Counters and badge
  // ---------------------------------------------------------------------

  /** The `stats` object. */
  datatype PersonnelStats = PersonnelStats(total: nat, available: nat, busy: nat, offline: nat)

  /** The counters over `deliveryPersonnel ?? []`: each status counts the
      people filtered by it; the three statuses never count anyone twice,
      so they add up to at most the total, and to the total exactly when
      everyone has a status. */
  function Stats(people: Option<seq<Person>>): (s: PersonnelStats)
    ensures s.total == |people.GetOr([])|
    ensures s.available == |Filter(people.GetOr([]), IsAvailable)|
    ensures s.busy == |Filter(people.GetOr([]), IsBusy)|
    ensures s.offline == |Filter(people.GetOr([]), IsOffline)|
    ensures s.available + s.busy + s.offline <= s.total
    ensures (forall i :: 0 <= i < |people.GetOr([])| ==> people.GetOr([])[i].status.Some?) ==>
      s.available + s.busy + s.offline == s.total
  {
    var ps := people.GetOr([]);
    var s := PersonnelStats(|ps|, |Filter(ps, IsAvailable)|, |Filter(ps, IsBusy)|, |Filter(ps, IsOffline)|);
    var availableOrBusy := (q: Person) => IsAvailable(q) || IsBusy(q);
    var known := (q: Person) => q.status.Some?;
    FilterDisjointUnion(ps, IsAvailable, IsBusy, availableOrBusy);
    forall q: Person
      ensures known(q) == (availableOrBusy(q) || IsOffline(q))
    {
      if q.status.Some? {
        var st := q.status.value;
        assert st == Available || st == Busy || st == Offline;
      }
    }
    FilterDisjointUnion(ps, availableOrBusy, IsOffline, known);
    assert (forall i :: 0 <= i < |ps| ==> ps[i].status.Some?) ==> |Filter(ps, known)| == |ps| by {
      if forall i :: 0 <= i < |ps| ==> ps[i].status.Some? {
        FilterAcceptingAll(ps, known);
      }
    }
    s
  }

  const BADGE_GREEN := "bg-green-100 text-green-800"
  const BADGE_YELLOW := "bg-yellow-100 text-yellow-800"
  const BADGE_RED := "bg-red-100 text-red-800"
  const BADGE_GRAY := "bg-gray-100 text-gray-800"

  /** The page's own `getStatusBadgeColor`, given `person?.status ?? ""`. */
  function PersonnelBadgeColor(status: string): (c: string)
    ensures c == BADGE_GREEN <==> status == "AVAILABLE"
    ensures c == BADGE_YELLOW <==> status == "BUSY"
    ensures c == BADGE_RED <==> status == "OFFLINE"
    ensures c == BADGE_GRAY <==> status !in {"AVAILABLE", "BUSY", "OFFLINE"}
  {
    match status
    case "AVAILABLE" => BADGE_GREEN
    case "BUSY" => BADGE_YELLOW
    case "OFFLINE" => BADGE_RED
    case _ => BADGE_GRAY
  }

  /** The badge text a person's status is shown with. */
  function BadgeText(q: Person): string {
    if q.status.Some? then DeliveryStatusName(q.status.value) else ""
  }

  /** Each status has its own badge, and only a person without a status is
      gray. */
  lemma BadgeColorByStatus(q: Person, r: Person)
    ensures PersonnelBadgeColor(BadgeText(q)) == BADGE_GRAY <==> q.status.None?
    ensures PersonnelBadgeColor(BadgeText(q)) == PersonnelBadgeColor(BadgeText(r)) <==> q.status == r.status
  {
  }

  // ---------------------------------------------------------------------
  // Requests
  // ---------------------------------------------------------------------

  /** The add and edit form. */
  datatype FormData = FormData(name: string, location: string, phone: string, email: string, status: DeliveryStatus)

  const EMPTY_FORM: FormData := FormData("", "", "", "", Available)

  /** `newPerson`: the form's fields with no parcels assigned, no
      deliveries made and a rating of 5. */
  function NewPerson(f: FormData): (q: Person)
    ensures q.assignedParcels == Some(0) && q.totalDeliveries == Some(0) && q.rating == Some(5.0)
    ensures q.id.None? && q.address.None?
  {
    Person(None, Some(f.name), Some(f.location), Some(f.status), Some(f.phone), Some(f.email),
      Some(0), Some(0), Some(5.0), None)
  }

  /** `openEditDialog`'s form: the person's fields, an absent one read as
      the empty string and an absent status as AVAILABLE. */
  function EditForm(q: Person): (f: FormData)
    ensures f.name == q.name.GetOr("") && f.location == q.location.GetOr("")
    ensures f.phone == q.phone.GetOr("") && f.email == q.email.GetOr("")
    ensures q.status.None? ==> f.status == Available
    ensures q.status.Some? ==> f.status == q.status.value
  {
    FormData(q.name.GetOr(""), q.location.GetOr(""), q.phone.GetOr(""), q.email.GetOr(""), q.status.GetOr(Available))
  }

  /** Editing a person just added from a form shows that same form. */
  lemma EditFormOfNewPerson(f: FormData)
    ensures EditForm(NewPerson(f)) == f
  {
  }

  /** Editing a person with every field present and then sending the form
      unchanged sends the person's own values. */
  lemma EditFormKeepsPresentFields(q: Person)
    requires q.name.Some? && q.location.Some? && q.phone.Some? && q.email.Some? && q.status.Some?
    ensures var f := EditForm(q);
      Some(f.name) == q.name && Some(f.location) == q.location && Some(f.phone) == q.phone
      && Some(f.email) == q.email && Some(f.status) == q.status
  {
  }

  /** The status select of a row: nothing is sent for a person without an
      id (or an empty one) or without a status chosen; otherwise only the
      status is sent. */
  function StatusChangeRequest(personId: Option<string>, newStatus: Option<DeliveryStatus>): (r: Option<(string, DeliveryStatus)>)
    ensures r.None? <==> personId.GetOr("") == "" || newStatus.None?
    ensures r.Some? ==> r.value == (personId.value, newStatus.value)
  {
    if personId.GetOr("") == "" || newStatus.None? then None
    else Some((personId.value, newStatus.value))
  }

  /** The page's state. */
  class DeliveryPersonnelState {
    var searchTerm: string
    var statusFilter: string
    var isAddDialogOpen: bool
    var isEditDialogOpen: bool
    var selectedPerson: Option<Person>
    var formData: FormData

    constructor ()
      ensures searchTerm == "" && statusFilter == "all"
      ensures !isAddDialogOpen && !isEditDialogOpen && selectedPerson.None? && formData == EMPTY_FORM
    {
      searchTerm, statusFilter := "", "all";
      isAddDialogOpen, isEditDialogOpen := false, false;
      selectedPerson, formData := None, EMPTY_FORM;
    }

    /** The add dialog's open-change handler: the form goes back to the
      empty AVAILABLE form and the add dialog flips open or shut. */
    method ToggleAddDialog()
      modifies this`isAddDialogOpen, this`formData
      ensures isAddDialogOpen == !old(isAddDialogOpen) && formData == EMPTY_FORM
    {
      formData := EMPTY_FORM;
      isAddDialogOpen := !isAddDialogOpen;
    }

    /** Typing into the form. */
    method UpdateForm(f: FormData)
      modifies this`formData
      ensures formData == f
    {
      formData := f;
    }

    /** `handleAddPersonnel`: the new person built from the form is sent;
      when the response carries data the dialog closes and the form is
      reset, otherwise both are kept. */
    method AddPersonnel(response: CallResult) returns (sent: Person)
      modifies this`isAddDialogOpen, this`formData
      ensures sent == NewPerson(old(formData))
      ensures response == WithData ==> !isAddDialogOpen && formData == EMPTY_FORM
      ensures response != WithData ==> isAddDialogOpen == old(isAddDialogOpen) && formData == old(formData)
    {
      sent := NewPerson(formData);
      if response == WithData {
        isAddDialogOpen := false;
        formData := EMPTY_FORM;
      }
    }

    /** `openEditDialog`. */
    method OpenEditDialog(q: Person)
      modifies this`selectedPerson, this`formData, this`isEditDialogOpen
      ensures selectedPerson == Some(q) && formData == EditForm(q) && isEditDialogOpen
    {
      selectedPerson := Some(q);
      formData := EditForm(q);
      isEditDialogOpen := true;
    }

    /** `handleEditPersonnel`: nothing without a selected person; otherwise
      the whole form is sent under the person's id, and the dialog closes
      once the call returns, with or without data; it stays open only if
      the call raised. */
    method EditPersonnel(response: CallResult) returns (sent: Option<(Option<string>, FormData)>)
      modifies this`isEditDialogOpen
      ensures selectedPerson.None? ==> sent.None? && isEditDialogOpen == old(isEditDialogOpen)
      ensures selectedPerson.Some? ==> sent == Some((selectedPerson.value.id, formData))
      ensures selectedPerson.Some? ==> (isEditDialogOpen <==> old(isEditDialogOpen) && response == Raised)
    {
      if selectedPerson.None? {
        return None;
      }
      sent := Some((selectedPerson.value.id, formData));
      if response != Raised {
        isEditDialogOpen := false;
      }
    }
  }
}
