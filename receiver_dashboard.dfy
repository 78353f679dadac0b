/** The receiver's overview page, `src/pages/Receiver/ReceiverDashboard.tsx`:
    the query guard, the counters, and the incoming and delivered lists
    with their previews. */
module ReceiverDashboard {
  import opened Common
  import opened Parcels

  /** `skip: !userData?.data?.email`: the parcels are fetched only for a
      user with an email (an absent email is the empty string). */
  predicate QuerySkipped(email: string) {
    email == ""
  }

  /** The `stats` object; the average delivery time is a fixed text. */
  datatype ReceiverStats = ReceiverStats(
    total: nat, delivered: nat, inTransit: nat, pending: nat, awaitingConfirmation: nat,
    averageDeliveryTime: string)

  const AVERAGE_DELIVERY_TIME := "2.5 days"

  /** The counters over `parcels ?? []`. Pending counts PENDING, APPROVED
      and PICKED but not PICKED_UP; the three classes are disjoint, and the
      parcels awaiting confirmation are among those in transit. */
  function Stats(parcels: Option<seq<Parcel>>): (s: ReceiverStats)
    ensures var ps := parcels.GetOr([]);
      && s.total == |ps|
      && s.delivered == Tally(ps, Delivered)
      && s.inTransit == Tally(ps, InTransit) + Tally(ps, OutForDelivery)
      && s.pending == Tally(ps, Pending) + Tally(ps, Approved) + Tally(ps, Picked)
      && s.awaitingConfirmation == Tally(ps, OutForDelivery)
    ensures s.awaitingConfirmation <= s.inTransit
    ensures s.delivered + s.inTransit + s.pending <= s.total
    ensures s.averageDeliveryTime == AVERAGE_DELIVERY_TIME
  {
    var ps := parcels.GetOr([]);
    var s := ReceiverStats(
      |ps|,
      CountIn(ps, {Delivered}),
      CountIn(ps, {InTransit, OutForDelivery}),
      CountIn(ps, {Pending, Approved, Picked}),
      CountIn(ps, {OutForDelivery}),
      AVERAGE_DELIVERY_TIME);
    CountInSingle(ps, Delivered);
    CountInSingle(ps, OutForDelivery);
    CountInPair(ps, InTransit, OutForDelivery);
    CountInPair(ps, Pending, Approved);
    CountInUnion(ps, {Pending, Approved}, {Picked});
    assert {Pending, Approved} + {Picked} == {Pending, Approved, Picked};
    CountInSingle(ps, Picked);
    CountInUnion(ps, {Delivered}, {InTransit, OutForDelivery});
    CountInUnion(ps, {Delivered} + {InTransit, OutForDelivery}, {Pending, Approved, Picked});
    s
  }

  predicate NotDelivered(p: Parcel) {
    p.status != Delivered
  }

  predicate IsDelivered(p: Parcel) {
    p.status == Delivered
  }

  /** `incomingParcels`: the parcels not yet delivered, in list order. */
  function Incoming(ps: seq<Parcel>): (r: seq<Parcel>)
    ensures forall p :: p in r <==> p in ps && p.status != Delivered
  {
    var r := Filter(ps, NotDelivered);
    forall p ensures p in r <==> p in ps && p.status != Delivered {
      FilterMembership(ps, NotDelivered, p);
    }
    r
  }

  /** `deliveredParcels`: the delivered parcels, in list order. */
  function DeliveredList(ps: seq<Parcel>): (r: seq<Parcel>)
    ensures forall p :: p in r <==> p in ps && p.status == Delivered
  {
    var r := Filter(ps, IsDelivered);
    forall p ensures p in r <==> p in ps && p.status == Delivered {
      FilterMembership(ps, IsDelivered, p);
    }
    r
  }

  /** The delivered list is as long as the Delivered counter. */
  lemma DeliveredListCount(ps: seq<Parcel>)
    ensures |DeliveredList(ps)| == Tally(ps, Delivered)
  {
    CountInSingle(ps, Delivered);
    CountInFilter(ps, {Delivered}, IsDelivered);
  }

  /** The two lists split the parcels: together they hold each parcel as
      often as the list does, their sizes add up to the total, and the
      delivered list is as long as the Delivered counter. */
  lemma IncomingDeliveredPartition(parcels: Option<seq<Parcel>>)
    ensures var ps := parcels.GetOr([]);
      && multiset(Incoming(ps)) + multiset(DeliveredList(ps)) == multiset(ps)
      && |Incoming(ps)| + |DeliveredList(ps)| == Stats(parcels).total
      && |DeliveredList(ps)| == Stats(parcels).delivered
  {
    var ps := parcels.GetOr([]);
    FilterPartition(ps, NotDelivered, IsDelivered);
    DeliveredListCount(ps);
  }

  /** A card's preview: its first three parcels, and a "view all" button
      exactly when some are not shown. */
  function Preview(list: seq<Parcel>): (r: (seq<Parcel>, bool))
    ensures |r.0| == (if |list| <= 3 then |list| else 3) && r.0 == list[..|r.0|]
    ensures r.1 <==> |list| > 3
  {
    (Take(list, 3), |list| > 3)
  }

  /** Every parcel lies in exactly one of the two cards' lists, so a
      parcel is never previewed twice. */
  lemma PreviewsDisjoint(ps: seq<Parcel>, p: Parcel)
    ensures !(p in Preview(Incoming(ps)).0 && p in Preview(DeliveredList(ps)).0)
  {
    var a := Incoming(ps);
    var b := DeliveredList(ps);
    if p in Preview(a).0 {
      assert p in a[..|Preview(a).0|];
      assert p.status != Delivered;
    }
    if p in Preview(b).0 {
      assert p in b[..|Preview(b).0|];
      assert p.status == Delivered;
    }
  }
}
