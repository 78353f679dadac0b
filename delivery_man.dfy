/** The delivery-personnel record of `src/types/delivery_man.type.ts`. */
module DeliveryMan {
  import opened Common

  /** `DeliveryStatus`. */
  datatype DeliveryStatus = Available | Busy | Offline

  function DeliveryStatusName(s: DeliveryStatus): string {
    match s
    case Available => "AVAILABLE"
    case Busy => "BUSY"
    case Offline => "OFFLINE"
  }

  /** Distinct statuses have distinct names. */
  lemma DeliveryStatusNameInjective(s: DeliveryStatus, t: DeliveryStatus)
    ensures DeliveryStatusName(s) == DeliveryStatusName(t) <==> s == t
  {
  }

  /** `IDeliveryPerson`: every field is optional. */
  datatype Person = Person(
    id: Option<string>,
    name: Option<string>,
    location: Option<string>,
    status: Option<DeliveryStatus>,
    phone: Option<string>,
    email: Option<string>,
    assignedParcels: Option<int>,
    totalDeliveries: Option<int>,
    rating: Option<real>,
    address: Option<string>)

  predicate IsAvailable(q: Person) {
    q.status == Some(Available)
  }

  predicate IsBusy(q: Person) {
    q.status == Some(Busy)
  }

  predicate IsOffline(q: Person) {
    q.status == Some(Offline)
  }
}
