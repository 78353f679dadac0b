/** The sender's parcel-creation form of
    `src/components/modules/sender/CreateParcelForm.tsx`: its schema, the
    text-to-number parsing of its numeric inputs, the cost estimate it
    keeps, and the creation request it submits. */
module CreateParcelForm {
  import opened Common
  import opened Parcels
  import opened NumberInput
  import Auth

  // ---------------------------------------------------------------------
  // Form values and schema
  // ---------------------------------------------------------------------

  /** `CreateParcelFormValues`; the optional notes are "" when absent. */
  datatype FormValues = FormValues(
    receiverName: string,
    receiverEmail: string,
    receiverPhone: string,
    receiverAddress: Address,
    parcelType: string,
    weight: real,
    dimensions: Dimensions,
    value: real,
    deliveryType: string,
    notes: string,
    pickupAddress: Address)

  /** The form's `defaultValues`. */
  const DEFAULT_VALUES: FormValues := FormValues(
    "", "", "", NO_ADDRESS, "", 0.0, Dimensions(0.0, 0.0, 0.0), 0.0, "standard", "", NO_ADDRESS)

  const DELIVERY_TYPES: set<string> := {"standard", "express", "same-day"}

  /** Street at least 5 characters, city and state at least 2, zip at least 4. */
  predicate AddressValid(a: Address) {
    |a.street| >= 5 && |a.city| >= 2 && |a.state| >= 2 && |a.zip| >= 4
  }

  /** `createParcelSchema`. Whether the receiver e-mail is well formed is
      decided outside this model and passed in as `emailOk`. */
  predicate FormValid(v: FormValues, emailOk: bool) {
    && |v.receiverName| >= 2
    && emailOk
    && |v.receiverPhone| >= 10
    && AddressValid(v.receiverAddress)
    && |v.parcelType| >= 1
    && v.weight >= 0.1
    && v.dimensions.length >= 1.0 && v.dimensions.width >= 1.0 && v.dimensions.height >= 1.0
    && v.value >= 0.01
    && v.deliveryType in DELIVERY_TYPES
    && AddressValid(v.pickupAddress)
  }

  /** The untouched form is not submittable. */
  lemma DefaultValuesInvalid(emailOk: bool)
    ensures !FormValid(DEFAULT_VALUES, emailOk)
    ensures MissingCostInput(DEFAULT_VALUES)
  {
  }

  // ---------------------------------------------------------------------
  // Cost estimate
  // ---------------------------------------------------------------------

  /** The guard of `calculateCost`: weight or a dimension is zero. Negative
      numbers pass it. */
  predicate MissingCostInput(v: FormValues) {
    v.weight == 0.0 || v.dimensions.length == 0.0 || v.dimensions.width == 0.0 || v.dimensions.height == 0.0
  }

  /** A form that passes the schema always has the inputs the estimate
      needs, and its estimate is at least the base rate times the tier. */
  lemma ValidFormHasEstimate(v: FormValues, emailOk: bool)
    requires FormValid(v, emailOk)
    ensures !MissingCostInput(v)
    ensures DeliveryCost(v.weight, v.dimensions, v.deliveryType) >= BASE_RATE * Multiplier(v.deliveryType) as real
    ensures DeliveryCost(v.weight, v.dimensions, v.deliveryType) >= 5.99
  {
    CostAtLeastBase(v.weight, v.dimensions, v.deliveryType);
  }

  // ---------------------------------------------------------------------
  // The creation request
  // ---------------------------------------------------------------------

  const CREATED_NOTE := "Parcel created and ready for pickup"

  /** `CreateParcelSchema`, the body sent to create a parcel. */
  datatype CreateRequest = CreateRequest(
    sender: string,
    receiver: Party,
    statusHistory: seq<HistoryEntry>,
    pickupAddress: Address,
    parcelType: string,
    weight: real,
    dimensions: Dimensions,
    cost: real,
    value: real,
    deliveryType: string,
    notes: string,
    status: Status)

  /** `Object.values(address).join(", ")`: the four parts in declaration
      order. */
  function AddressLine(a: Address): string {
    Join([a.street, a.city, a.state, a.zip], ", ")
  }

  lemma AddressLineParts(a: Address)
    ensures AddressLine(a) == a.street + ", " + a.city + ", " + a.state + ", " + a.zip
  {
    var parts := [a.street, a.city, a.state, a.zip];
    assert parts[1..][1..][1..] == [a.zip];
    assert Join(parts[1..][1..], ", ") == a.state + ", " + a.zip;
    assert Join(parts[1..], ", ") == a.city + ", " + (a.state + ", " + a.zip);
  }

  /** The request `onSubmit` builds for user `userId` at time `now`. */
  function CreationRequest(v: FormValues, estimatedCost: Option<real>, userId: string, now: string): CreateRequest {
    var entry := HistoryEntry(StatusName(Pending), now, AddressLine(v.pickupAddress), userId, CREATED_NOTE);
    CreateRequest(
      userId,
      Party("", v.receiverName, v.receiverEmail, v.receiverPhone, v.receiverAddress),
      [entry],
      v.pickupAddress,
      v.parcelType,
      v.weight,
      v.dimensions,
      if estimatedCost.Some? && estimatedCost.value != 0.0 then estimatedCost.value else 0.0,
      v.value,
      v.deliveryType,
      v.notes,
      Pending)
  }

  /** A new parcel is PENDING with exactly one PENDING entry, stamped by
      the creating user at the pickup address; its cost is the estimate, or
      0 without one; everything else is copied from the form. */
  lemma CreationRequestShape(v: FormValues, estimatedCost: Option<real>, userId: string, now: string)
    ensures var r := CreationRequest(v, estimatedCost, userId, now);
            && r.status == Pending
            && |r.statusHistory| == 1
            && HistoryMatchesStatus(r.status, r.statusHistory)
            && r.statusHistory[0].updatedBy == userId == r.sender
            && r.statusHistory[0].location
               == v.pickupAddress.street + ", " + v.pickupAddress.city + ", " + v.pickupAddress.state + ", " + v.pickupAddress.zip
            && r.cost == estimatedCost.GetOr(0.0)
            && r.receiver.address == v.receiverAddress && r.pickupAddress == v.pickupAddress
            && r.weight == v.weight && r.dimensions == v.dimensions && r.deliveryType == v.deliveryType
  {
    AddressLineParts(v.pickupAddress);
  }

  /** How the create call ended: it returned (with the new tracking id, or
      "" when the response has none) or it raised. */
  datatype CreateResponse = Returned(trackingId: string) | Threw

  // ---------------------------------------------------------------------
  // The component's state
  // ---------------------------------------------------------------------

  /** The form's values and the `estimatedCost` state. */
  class CreateParcelFormState {
    var values: FormValues
    var estimatedCost: Option<real>

    constructor ()
      ensures values == DEFAULT_VALUES && estimatedCost == None
    {
      values := DEFAULT_VALUES;
      estimatedCost := None;
    }

    /** The weight input's `onChange`. */
    method EnterWeight(text: string)
      modifies this
      ensures values == old(values).(weight := ParseFloatOrZero(text))
      ensures estimatedCost == old(estimatedCost)
    {
      values := values.(weight := ParseFloatOrZero(text));
    }

    /** The length input's `onChange`: a whole number of centimetres. */
    method EnterLength(text: string)
      modifies this
      ensures values == old(values).(dimensions := old(values).dimensions.(length := ParseIntOrZero(text) as real))
      ensures estimatedCost == old(estimatedCost)
    {
      values := values.(dimensions := values.dimensions.(length := ParseIntOrZero(text) as real));
    }

    /** The width input's `onChange`. */
    method EnterWidth(text: string)
      modifies this
      ensures values == old(values).(dimensions := old(values).dimensions.(width := ParseIntOrZero(text) as real))
      ensures estimatedCost == old(estimatedCost)
    {
      values := values.(dimensions := values.dimensions.(width := ParseIntOrZero(text) as real));
    }

    /** The height input's `onChange`. */
    method EnterHeight(text: string)
      modifies this
      ensures values == old(values).(dimensions := old(values).dimensions.(height := ParseIntOrZero(text) as real))
      ensures estimatedCost == old(estimatedCost)
    {
      values := values.(dimensions := values.dimensions.(height := ParseIntOrZero(text) as real));
    }

    /** The declared-value input's `onChange`. */
    method EnterValue(text: string)
      modifies this
      ensures values == old(values).(value := ParseFloatOrZero(text))
      ensures estimatedCost == old(estimatedCost)
    {
      values := values.(value := ParseFloatOrZero(text));
    }

    /** `calculateCost`: reports missing input and keeps the old estimate,
      or stores the delivery cost of the current values. */
    method CalculateCost() returns (missing: bool)
      modifies this
      ensures missing <==> MissingCostInput(values)
      ensures values == old(values)
      ensures missing ==> estimatedCost == old(estimatedCost)
      ensures !missing ==> estimatedCost == Some(DeliveryCost(values.weight, values.dimensions, values.deliveryType))
    {
      missing := MissingCostInput(values);
      if !missing {
        estimatedCost := Some(DeliveryCost(values.weight, values.dimensions, values.deliveryType));
      }
    }

    /** `handleSubmit(onSubmit)`: a form that fails the schema is not sent
      and nothing changes; `onSubmit` then does nothing without a signed-in
      user, and otherwise sends the creation request, goes to the parcel
      list when a tracking id comes back, and resets the estimate and form
      unless the call raised. */
    method Submit(emailOk: bool, user: Option<Auth.User>, now: string, response: CreateResponse)
        returns (sent: Option<CreateRequest>, navigateTo: Option<string>)
      modifies this
      ensures sent.Some? <==> FormValid(old(values), emailOk) && user.Some?
      ensures sent.Some? ==> sent == Some(CreationRequest(old(values), old(estimatedCost), user.value.id.GetOr(""), now))
      ensures navigateTo.Some? <==> sent.Some? && response.Returned? && response.trackingId != ""
      ensures navigateTo.Some? ==> navigateTo.value == "/sender/parcels"
      ensures if sent.Some? && response.Returned?
              then values == DEFAULT_VALUES && estimatedCost == None
              else values == old(values) && estimatedCost == old(estimatedCost)
    {
      sent, navigateTo := None, None;
      if !FormValid(values, emailOk) || user.None? {
        return;
      }
      sent := Some(CreationRequest(values, estimatedCost, user.value.id.GetOr(""), now));
      if response.Threw? {
        return;
      }
      if response.trackingId != "" {
        navigateTo := Some("/sender/parcels");
      }
      estimatedCost := None;
      values := DEFAULT_VALUES;
    }
  }
}
