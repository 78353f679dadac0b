/** The sender's overview page, `src/pages/Sender/SenderDashboard.tsx`: the
    four counters, the total spent, the success rate and the list of recent
    parcels. */
module SenderDashboard {
  import opened Common
  import opened Parcels

  /** The `stats` object. */
  datatype SenderStats = SenderStats(
    total: nat, delivered: nat, inTransit: nat, pending: nat, cancelled: nat, totalCost: real)

  /** `reduce((sum, p) => sum + p.cost, 0)`: the costs added from the left. */
  function TotalCost(ps: seq<Parcel>): real {
    if ps == [] then 0.0 else TotalCost(ps[..|ps| - 1]) + ps[|ps| - 1].cost
  }

  /** The total of two lists run one after the other is the sum of their
      totals. */
  lemma {:induction false} TotalCostAppend(a: seq<Parcel>, b: seq<Parcel>)
    ensures TotalCost(a + b) == TotalCost(a) + TotalCost(b)
    decreases |b|
  {
    if b == [] {
      assert a + b == a;
    } else {
      assert (a + b)[..|a + b| - 1] == a + b[..|b| - 1];
      TotalCostAppend(a, b[..|b| - 1]);
    }
  }

  /** Folding from the left or peeling off the first parcel gives the same
      total. */
  lemma {:induction false} TotalCostFront(p: Parcel, ps: seq<Parcel>)
    ensures TotalCost([p] + ps) == p.cost + TotalCost(ps)
  {
    TotalCostAppend([p], ps);
    assert [p][..0] == [];
  }

  /** With no negative cost the total is at least each parcel's cost. */
  lemma {:induction false} TotalCostBounds(ps: seq<Parcel>)
    requires forall i :: 0 <= i < |ps| ==> ps[i].cost >= 0.0
    ensures TotalCost(ps) >= 0.0
    ensures forall i :: 0 <= i < |ps| ==> TotalCost(ps) >= ps[i].cost
  {
    if ps != [] {
      var init := ps[..|ps| - 1];
      TotalCostBounds(init);
      forall i | 0 <= i < |ps|
        ensures TotalCost(ps) >= ps[i].cost
      {
        if i < |ps| - 1 {
          assert ps[i] == init[i];
        }
      }
    }
  }

  /** The counters over the fetched list (`parcels ?? []`). Delivered,
      in transit, pending and cancelled are disjoint, so together they never
      exceed the total; the rest (picked up, dispatched, held, ...) is in
      none of the four. */
  function Stats(parcels: Option<seq<Parcel>>): (s: SenderStats)
    ensures var ps := parcels.GetOr([]);
      && s.total == |ps|
      && s.delivered == Tally(ps, Delivered)
      && s.inTransit == Tally(ps, InTransit) + Tally(ps, OutForDelivery)
      && s.pending == Tally(ps, Pending) + Tally(ps, Approved)
      && s.cancelled == Tally(ps, Cancelled)
      && s.totalCost == TotalCost(ps)
      && s.delivered + s.inTransit + s.pending + s.cancelled <= s.total
    ensures parcels.None? ==> s == SenderStats(0, 0, 0, 0, 0, 0.0)
  {
    var ps := parcels.GetOr([]);
    CountInSingle(ps, Delivered);
    CountInSingle(ps, Cancelled);
    CountInPair(ps, InTransit, OutForDelivery);
    CountInPair(ps, Pending, Approved);
    FourClassesDisjoint(ps);
    SenderStats(
      |ps|,
      CountIn(ps, {Delivered}),
      CountIn(ps, {InTransit, OutForDelivery}),
      CountIn(ps, {Pending, Approved}),
      CountIn(ps, {Cancelled}),
      TotalCost(ps))
  }

  /** The four counted classes share no status, so their counts add up to
      at most the number of parcels. */
  lemma FourClassesDisjoint(ps: seq<Parcel>)
    ensures CountIn(ps, {Delivered}) + CountIn(ps, {InTransit, OutForDelivery})
      + CountIn(ps, {Pending, Approved}) + CountIn(ps, {Cancelled}) <= |ps|
  {
    var d, t, p, c := {Delivered}, {InTransit, OutForDelivery}, {Pending, Approved}, {Cancelled};
    CountInUnion(ps, d, t);
    CountInUnion(ps, d + t, p);
    CountInUnion(ps, d + t + p, c);
  }

  /** The success rate under the Delivered counter: the delivered share in
      per cent, rounded half up, and 0 for an empty list. */
  function SuccessRate(delivered: nat, total: nat): (r: int)
    ensures total == 0 ==> r == 0
    ensures total > 0 ==> r as real - 0.5 <= (delivered as real / total as real) * 100.0 < r as real + 0.5
  {
    if total > 0 then RoundHalfUp((delivered as real / total as real) * 100.0) else 0
  }

  /** The rate of real counters is a percentage: 100 exactly when every
      parcel is delivered, 0 when none is. */
  lemma SuccessRateRange(delivered: nat, total: nat)
    requires delivered <= total
    ensures 0 <= SuccessRate(delivered, total) <= 100
    ensures total > 0 && delivered == total ==> SuccessRate(delivered, total) == 100
    ensures delivered == 0 ==> SuccessRate(delivered, total) == 0
  {
    if total > 0 {
      var x := (delivered as real / total as real) * 100.0;
      assert 0.0 <= x <= 100.0 by {
        assert delivered as real / total as real <= 1.0;
      }
      RoundHalfUpMonotone(0.0, x);
      RoundHalfUpMonotone(x, 100.0);
      if delivered == total {
        DivideBySelf(total as real);
      }
      if delivered == 0 {
        assert x == 0.0;
      }
    }
  }

  lemma DivideBySelf(t: real)
    requires t > 0.0
    ensures t / t == 1.0
  {
  }

  lemma DivideMonotone(a: real, b: real, t: real)
    requires a <= b && t > 0.0
    ensures a / t <= b / t
  {
    assert b / t - a / t == (b - a) / t;
  }

  /** More deliveries out of the same total never lower the rate. */
  lemma SuccessRateMonotone(d1: nat, d2: nat, total: nat)
    requires d1 <= d2
    ensures SuccessRate(d1, total) <= SuccessRate(d2, total)
  {
    if total > 0 {
      DivideMonotone(d1 as real, d2 as real, total as real);
      RoundHalfUpMonotone((d1 as real / total as real) * 100.0, (d2 as real / total as real) * 100.0);
    }
  }

  /** The Recent Parcels card: the first five parcels, and a "View all"
      link exactly when some are not shown. */
  function RecentParcels(parcels: Option<seq<Parcel>>): (r: (seq<Parcel>, bool))
    ensures var ps := parcels.GetOr([]);
      && |r.0| == (if |ps| <= 5 then |ps| else 5) && r.0 == ps[..|r.0|]
      && (r.1 <==> |r.0| < |ps|)
  {
    var ps := parcels.GetOr([]);
    (Take(ps, 5), |ps| > 5)
  }

  /** `status.replace("-", " ")`: the first hyphen becomes a space. */
  function ReplaceFirstHyphen(s: string): (r: string)
    ensures |r| == |s|
    ensures '-' !in s ==> r == s
    ensures forall i :: 0 <= i < |s| ==> r[i] == (if s[i] == '-' && '-' !in s[..i] then ' ' else s[i])
    ensures '-' in s ==> ' ' in r && multiset(r)['-'] == multiset(s)['-'] - 1
  {
    if s == [] then []
    else
      assert s == [s[0]] + s[1..];
      if s[0] == '-' then
        var r := " " + s[1..];
        assert forall i :: 0 < i < |s| ==> s[0] in s[..i];
        r
      else
        var t := ReplaceFirstHyphen(s[1..]);
        var r := [s[0]] + t;
        forall i | 0 < i < |s|
          ensures r[i] == (if s[i] == '-' && '-' !in s[..i] then ' ' else s[i])
        {
          PrefixAfterHead(s, i);
        }
        assert multiset(r) == multiset{s[0]} + multiset(t);
        r
  }

  /** A prefix of `s` is its head followed by a prefix of its tail. */
  lemma PrefixAfterHead(s: string, i: int)
    requires 0 < i <= |s|
    ensures s[..i] == [s[0]] + s[1..][..i - 1]
  {
  }

  /** Status strings use underscores, so the replacement never changes the
      status shown in the recent list. */
  lemma RecentStatusUnchanged(s: Status)
    ensures ReplaceFirstHyphen(StatusName(s)) == StatusName(s)
  {
    StatusNameShape(s);
  }
}
