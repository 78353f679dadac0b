/** The receiver's delivery history page,
    `src/pages/Receiver/ReceiverDeliveryHistory.tsx`: the query guard, the
    delivered filter and the empty-history message. */
module ReceiverDeliveryHistory {
  import opened Common
  import opened Parcels
  import ReceiverDashboard

  /** What the query hook yields: nothing while skipped, else the server's
      answer (loading is not modelled). */
  function Fetched(skip: bool, server: seq<Parcel>): (r: Option<seq<Parcel>>)
    ensures r.None? <==> skip
    ensures r.Some? ==> r.value == server
  {
    if skip then None else Some(server)
  }

  /** `skip: userData?.data?.email` as written: the email itself, so the
      query is skipped exactly when the user has an email. */
  predicate QuerySkippedAsWritten(email: string) {
    email != ""
  }

  /** The guard as evidently meant, the one the receiver's overview uses:
      skip only when there is no email. */
  predicate QuerySkipped(email: string) {
    ReceiverDashboard.QuerySkipped(email)
  }

  /** `parcels?.filter(p => p.status === "DELIVERED")`: absent while there
      is no data, else the delivered parcels in order. */
  function HistoryList(fetched: Option<seq<Parcel>>): (r: Option<seq<Parcel>>)
    ensures r.None? <==> fetched.None?
    ensures r.Some? ==> forall p :: p in r.value <==> p in fetched.value && p.status == Delivered
  {
    if fetched.None? then None else Some(ReceiverDashboard.DeliveredList(fetched.value))
  }

  /** The cards rendered: the delivered list, or none at all when it is
      absent. */
  function HistoryCards(fetched: Option<seq<Parcel>>): (r: seq<Parcel>)
    ensures forall p :: p in r ==> p.status == Delivered
  {
    HistoryList(fetched).GetOr([])
  }

  /** `deliveredParcels?.length === 0`: an absent list is not "empty". */
  predicate EmptyHistoryShown(fetched: Option<seq<Parcel>>) {
    HistoryList(fetched) == Some([])
  }

  /** The message appears exactly when data arrived and none of it is
      delivered. */
  lemma EmptyHistoryShownIff(fetched: Option<seq<Parcel>>)
    ensures EmptyHistoryShown(fetched) <==>
      fetched.Some? && forall i :: 0 <= i < |fetched.value| ==> fetched.value[i].status != Delivered
  {
    if fetched.Some? {
      var ps := fetched.value;
      if forall i :: 0 <= i < |ps| ==> ps[i].status != Delivered {
        FilterRejectingAll(ps, ReceiverDashboard.IsDelivered);
      } else {
        var i :| 0 <= i < |ps| && ps[i].status == Delivered;
        assert ps[i] in ReceiverDashboard.DeliveredList(ps);
      }
    }
  }

  /** As written, a receiver who has an email never fetches, so the page
      shows neither the message nor a single card, whatever the server
      holds. */
  lemma HistoryAsWrittenShowsNothing(email: string, server: seq<Parcel>)
    requires email != ""
    ensures var fetched := Fetched(QuerySkippedAsWritten(email), server);
      !EmptyHistoryShown(fetched) && HistoryCards(fetched) == []
  {
  }

  /** Once corrected, a receiver with an email sees every delivered parcel
      the server returns, and the message exactly when there is none. */
  lemma HistoryShowsDelivered(email: string, server: seq<Parcel>)
    requires email != ""
    ensures var fetched := Fetched(QuerySkipped(email), server);
      && (forall p :: p in HistoryCards(fetched) <==> p in server && p.status == Delivered)
      && (EmptyHistoryShown(fetched) <==> forall i :: 0 <= i < |server| ==> server[i].status != Delivered)
  {
    EmptyHistoryShownIff(Some(server));
  }
}
