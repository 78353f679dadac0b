/** The receiver's incoming-parcels page,
    `src/pages/Receiver/ReceiverIncomingParcel.tsx`: the list it hands to
    the incoming-parcels table. */
module ReceiverIncomingParcel {
  import opened Common
  import opened Parcels
  import ReceiverDashboard

  /** The table's input: every fetched parcel that is not delivered. The
      page fetches all parcels, not the receiver's own, and applies no
      filter by receiver; missing data is the empty list. Cancelled,
      returned, held and blocked parcels all stay. */
  function IncomingList(fetched: Option<seq<Parcel>>): (r: seq<Parcel>)
    ensures fetched.None? ==> r == []
    ensures forall p :: p in r <==> p in fetched.GetOr([]) && p.status != Delivered
  {
    ReceiverDashboard.Incoming(fetched.GetOr([]))
  }

  /** The list keeps the fetched order: the list of two batches is the list
      of the first followed by the list of the second. */
  lemma IncomingListKeepsOrder(a: seq<Parcel>, b: seq<Parcel>)
    ensures IncomingList(Some(a + b)) == IncomingList(Some(a)) + IncomingList(Some(b))
  {
    FilterAppend(a, b, ReceiverDashboard.NotDelivered);
  }

  /** When nothing fetched is delivered, the whole list is handed on
      unchanged. */
  lemma IncomingListWhole(ps: seq<Parcel>)
    requires forall i :: 0 <= i < |ps| ==> ps[i].status != Delivered
    ensures IncomingList(Some(ps)) == ps
  {
    FilterAcceptingAll(ps, ReceiverDashboard.NotDelivered);
  }
}
