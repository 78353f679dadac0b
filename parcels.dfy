/** The parcel vocabulary of `src/lib/parcels.ts`: the twelve statuses, the
    parcel record and its status history, the status colour and label
    helpers, and the delivery-cost estimate. */
module Parcels {
  import opened Common

  // ---------------------------------------------------------------------
  // Statuses
  // ---------------------------------------------------------------------

  /** `IParcelStatus`. */
  datatype Status =
    | Pending | Approved | PickedUp | Dispatched | Picked | InTransit
    | OutForDelivery | Delivered | Cancelled | Returned | Held | Blocked

  /** The string each status is sent and compared as. */
  function StatusName(s: Status): string {
    match s
    case Pending => "PENDING"
    case Approved => "APPROVED"
    case PickedUp => "PICKED_UP"
    case Dispatched => "DISPATCHED"
    case Picked => "PICKED"
    case InTransit => "IN_TRANSIT"
    case OutForDelivery => "OUT_FOR_DELIVERY"
    case Delivered => "DELIVERED"
    case Cancelled => "CANCELLED"
    case Returned => "RETURNED"
    case Held => "HELD"
    case Blocked => "BLOCKED"
  }

  /** The status a string names, if any. */
  function ParseStatus(t: string): (r: Option<Status>)
    ensures r.Some? ==> StatusName(r.value) == t
  {
    if t == "PENDING" then Some(Pending)
    else if t == "APPROVED" then Some(Approved)
    else if t == "PICKED_UP" then Some(PickedUp)
    else if t == "DISPATCHED" then Some(Dispatched)
    else if t == "PICKED" then Some(Picked)
    else if t == "IN_TRANSIT" then Some(InTransit)
    else if t == "OUT_FOR_DELIVERY" then Some(OutForDelivery)
    else if t == "DELIVERED" then Some(Delivered)
    else if t == "CANCELLED" then Some(Cancelled)
    else if t == "RETURNED" then Some(Returned)
    else if t == "HELD" then Some(Held)
    else if t == "BLOCKED" then Some(Blocked)
    else None
  }

  /** Every status name parses back to its status, so names are distinct. */
  lemma ParseStatusName(s: Status)
    ensures ParseStatus(StatusName(s)) == Some(s)
  {
  }

  /** Two statuses with the same name are the same status. */
  lemma StatusNameInjective(s: Status, t: Status)
    ensures StatusName(s) == StatusName(t) <==> s == t
  {
    ParseStatusName(s);
    ParseStatusName(t);
  }

  // ---------------------------------------------------------------------
  // The parcel record
  // ---------------------------------------------------------------------

  /** A postal address; an absent part is the empty string. */
  datatype Address = Address(street: string, city: string, state: string, zip: string)

  const NO_ADDRESS: Address := Address("", "", "", "")

  /** A sender or receiver. */
  datatype Party = Party(id: string, name: string, email: string, phone: string, address: Address)

  /** `ParcelStatusUpdate`: one history entry. Every field is optional in
      the source and every reader falls back with `||`, so an absent field
      is the empty string. */
  datatype HistoryEntry = HistoryEntry(
    status: string, timestamp: string, location: string, updatedBy: string, note: string)

  datatype Dimensions = Dimensions(length: real, width: real, height: real)

  /** `Parcel`. Timestamps are milliseconds since the epoch; `createdAt` and
      `estimatedDelivery` are `None` when the server left them empty. */
  datatype Parcel = Parcel(
    id: string,
    trackingId: string,
    sender: Party,
    receiver: Party,
    parcelType: string,
    weight: real,
    dimensions: Dimensions,
    value: real,
    deliveryType: string,
    status: Status,
    createdAt: Option<int>,
    estimatedDelivery: Option<int>,
    actualDelivery: Option<int>,
    deliveryManId: Option<string>,
    cost: real,
    statusHistory: seq<HistoryEntry>,
    pickupAddress: Address,
    deliveryAddress: Address)

  /** Three days in milliseconds, the delivery estimate the pages fall
      back on. */
  const THREE_DAYS_MS: int := 3 * 24 * 60 * 60 * 1000

  /** The history ends with an entry for the parcel's current status. */
  predicate HistoryMatchesStatus(status: Status, history: seq<HistoryEntry>) {
    |history| >= 1 && history[|history| - 1].status == StatusName(status)
  }

  // ---------------------------------------------------------------------
  // Colours
  // ---------------------------------------------------------------------

  const GREEN := "bg-green-500"
  const BLUE := "bg-blue-500"
  const PURPLE := "bg-purple-500"
  const YELLOW := "bg-yellow-500"
  const ORANGE := "bg-orange-500"
  const RED := "bg-red-500"
  const GRAY := "bg-gray-500"

  /** `getStatusColor`: a colour for every string, gray for anything the
      switch does not name (among the statuses: PICKED_UP, DISPATCHED,
      RETURNED, HELD and BLOCKED). */
  function StatusColor(status: string): (c: string)
    ensures c in {GREEN, BLUE, PURPLE, YELLOW, ORANGE, RED, GRAY}
    ensures c == GREEN <==> status == "DELIVERED"
    ensures c == BLUE <==> status == "IN_TRANSIT" || status == "OUT_FOR_DELIVERY"
    ensures c == PURPLE <==> status == "PICKED"
    ensures c == YELLOW <==> status == "APPROVED"
    ensures c == ORANGE <==> status == "PENDING"
    ensures c == RED <==> status == "CANCELLED"
  {
    match status
    case "DELIVERED" => GREEN
    case "IN_TRANSIT" => BLUE
    case "OUT_FOR_DELIVERY" => BLUE
    case "PICKED" => PURPLE
    case "APPROVED" => YELLOW
    case "PENDING" => ORANGE
    case "CANCELLED" => RED
    case _ => GRAY
  }

  /** The statuses `getStatusColor` paints gray. */
  lemma GrayStatuses(s: Status)
    ensures StatusColor(StatusName(s)) == GRAY <==> s in {PickedUp, Dispatched, Returned, Held, Blocked}
  {
  }

  // ---------------------------------------------------------------------
  // Labels: split on "-", capitalise each word, join with " "
  // ---------------------------------------------------------------------

  /** `s.split(sep)`: always at least one part; separators at either end or
      next to each other give empty parts. */
  function Split(s: string, sep: char): (parts: seq<string>)
    ensures |parts| >= 1
  {
    if s == [] then [[]]
    else
      var rest := Split(s[1..], sep);
      if s[0] == sep then [[]] + rest else [[s[0]] + rest[0]] + rest[1..]
  }

  /** `parts.join(sep)`. */
  function Join(parts: seq<string>, sep: string): string
    requires |parts| >= 1
  {
    if |parts| == 1 then parts[0] else parts[0] + sep + Join(parts[1..], sep)
  }

  /** Joining the parts of a split with the separator gives back the string. */
  lemma {:induction false} JoinSplit(s: string, sep: char)
    ensures Join(Split(s, sep), [sep]) == s
  {
    if s != [] {
      var rest := Split(s[1..], sep);
      JoinSplit(s[1..], sep);
      if s[0] == sep {
        assert Split(s, sep)[1..] == rest;
      } else {
        JoinHead(s[0], rest, [sep]);
      }
      assert s == [s[0]] + s[1..];
    }
  }

  /** Prepending a character to the first part prepends it to the join. */
  lemma JoinHead(c: char, parts: seq<string>, sep: string)
    requires |parts| >= 1
    ensures Join([[c] + parts[0]] + parts[1..], sep) == [c] + Join(parts, sep)
  {
    var ps := [[c] + parts[0]] + parts[1..];
    if |parts| > 1 {
      assert ps[1..] == parts[1..];
    }
  }

  /** `word.charAt(0).toUpperCase() + word.slice(1)`. */
  function Capitalize(word: string): string {
    if word == [] then [] else [UpperChar(word[0])] + word[1..]
  }

  function CapitalizeAll(words: seq<string>): (r: seq<string>)
    ensures |r| == |words|
  {
    if words == [] then [] else [Capitalize(words[0])] + CapitalizeAll(words[1..])
  }

  /** `getStatusLabel`. */
  function StatusLabel(status: string): string {
    Join(CapitalizeAll(Split(status, '-')), " ")
  }

  /** The label character by character: a hyphen becomes a space, and the
      first character of each word (the start, or right after a hyphen)
      is upper-cased. `atStart` says whether `s` begins a word. */
  function LabelFrom(s: string, atStart: bool): string {
    if s == [] then []
    else if s[0] == '-' then [' '] + LabelFrom(s[1..], true)
    else [if atStart then UpperChar(s[0]) else s[0]] + LabelFrom(s[1..], false)
  }

  /** Capitalises the first word only when `atStart`, later words always. */
  function CapitalizeTail(parts: seq<string>, atStart: bool): seq<string>
    requires |parts| >= 1
  {
    [if atStart then Capitalize(parts[0]) else parts[0]] + CapitalizeAll(parts[1..])
  }

  lemma {:induction false} SplitLabel(s: string, atStart: bool)
    ensures Join(CapitalizeTail(Split(s, '-'), atStart), " ") == LabelFrom(s, atStart)
  {
    if s != [] {
      var rest := Split(s[1..], '-');
      if s[0] == '-' {
        SplitLabel(s[1..], true);
        assert CapitalizeTail(Split(s, '-'), atStart) == [[]] + CapitalizeTail(rest, true);
      } else {
        SplitLabel(s[1..], false);
        var first := if atStart then UpperChar(s[0]) else s[0];
        assert CapitalizeTail(Split(s, '-'), atStart)
            == [[first] + rest[0]] + CapitalizeAll(rest[1..]);
        JoinHead(first, CapitalizeTail(rest, false), " ");
      }
    }
  }

  /** The split/capitalise/join pipeline is the character-wise rewrite. */
  lemma StatusLabelChars(status: string)
    ensures StatusLabel(status) == LabelFrom(status, true)
  {
    var parts := Split(status, '-');
    assert CapitalizeAll(parts) == CapitalizeTail(parts, true);
    SplitLabel(status, true);
  }

  lemma {:induction false} LabelFromShape(s: string, atStart: bool)
    ensures |LabelFrom(s, atStart)| == |s|
    ensures '-' !in LabelFrom(s, atStart)
  {
    if s != [] {
      LabelFromShape(s[1..], s[0] == '-');
    }
  }

  /** On a string without hyphens the rewrite only touches the first character. */
  lemma {:induction false} LabelFromNoHyphen(s: string, atStart: bool)
    requires '-' !in s
    ensures LabelFrom(s, atStart) == if s == [] then [] else [if atStart then UpperChar(s[0]) else s[0]] + s[1..]
  {
    if s != [] {
      assert '-' !in s[1..];
      LabelFromNoHyphen(s[1..], false);
    }
  }

  /** For ASCII input the label has the length of the input and no hyphen. */
  lemma StatusLabelShape(status: string)
    ensures |StatusLabel(status)| == |status|
    ensures '-' !in StatusLabel(status)
  {
    StatusLabelChars(status);
    LabelFromShape(status, true);
  }

  /** Labelling a label changes nothing. */
  lemma StatusLabelIdempotent(status: string)
    ensures StatusLabel(StatusLabel(status)) == StatusLabel(status)
  {
    var r := StatusLabel(status);
    StatusLabelChars(status);
    StatusLabelChars(r);
    LabelFromShape(status, true);
    LabelFromNoHyphen(r, true);
    if status != [] {
      assert r[0] == (if status[0] == '-' then ' ' else UpperChar(status[0]));
      assert UpperChar(r[0]) == r[0];
      assert [r[0]] + r[1..] == r;
    }
  }

  /** Status names start with a capital and have no hyphen. */
  lemma StatusNameShape(s: Status)
    ensures var n := StatusName(s); n != [] && 'A' <= n[0] <= 'Z' && '-' !in n
  {
    match s
    case Pending =>
    case Approved =>
    case PickedUp =>
    case Dispatched =>
    case Picked =>
    case InTransit =>
    case OutForDelivery =>
    case Delivered =>
    case Cancelled =>
    case Returned =>
    case Held =>
    case Blocked =>
  }

  /** Every status name is its own label. */
  lemma StatusLabelOfName(s: Status)
    ensures StatusLabel(StatusName(s)) == StatusName(s)
  {
    var n := StatusName(s);
    StatusLabelChars(n);
    StatusNameShape(s);
    LabelFromNoHyphen(n, true);
    assert [n[0]] + n[1..] == n;
  }

  // ---------------------------------------------------------------------
  // Delivery cost
  // ---------------------------------------------------------------------

  /** `Math.round`: the nearest integer, halves rounded up. */
  function RoundHalfUp(x: real): (n: int)
    ensures n as real - 0.5 <= x < n as real + 0.5
  {
    (x + 0.5).Floor
  }

  lemma RoundHalfUpMonotone(x: real, y: real)
    requires x <= y
    ensures RoundHalfUp(x) <= RoundHalfUp(y)
  {
  }

  /** The delivery-type multiplier: 2 for express, 3 for same-day and 1 for
      standard or any other value. */
  function Multiplier(deliveryType: string): (m: int)
    ensures 1 <= m <= 3
    ensures m == 2 <==> deliveryType == "express"
    ensures m == 3 <==> deliveryType == "same-day"
  {
    match deliveryType
    case "express" => 2
    case "same-day" => 3
    case _ => 1
  }

  const BASE_RATE: real := 5.99

  /** Base rate plus 2.5 per kilogram plus 0.5 per litre of volume. */
  function CostBeforeTier(weight: real, d: Dimensions): real {
    BASE_RATE + weight * 2.5 + (d.length * d.width * d.height / 1000.0) * 0.5
  }

  /** `calculateDeliveryCost` in cents: the tiered cost rounded to the
      nearest cent. */
  function DeliveryCostCents(weight: real, d: Dimensions, deliveryType: string): (cents: int)
    ensures var exact := CostBeforeTier(weight, d) * Multiplier(deliveryType) as real * 100.0;
            exact - 0.5 < cents as real <= exact + 0.5
  {
    RoundHalfUp(CostBeforeTier(weight, d) * Multiplier(deliveryType) as real * 100.0)
  }

  /** `calculateDeliveryCost`: always a whole number of cents, within half a
      cent of the exact tiered cost. */
  function DeliveryCost(weight: real, d: Dimensions, deliveryType: string): (cost: real)
    ensures (cost * 100.0).Floor as real == cost * 100.0
    ensures var exact := CostBeforeTier(weight, d) * Multiplier(deliveryType) as real;
            exact - 0.005 < cost <= exact + 0.005
  {
    DeliveryCostCents(weight, d, deliveryType) as real / 100.0
  }

  /** The worked example: 2 kg in a 10 cm cube at standard rate is 11.49. */
  lemma DeliveryCostExample()
    ensures DeliveryCost(2.0, Dimensions(10.0, 10.0, 10.0), "standard") == 11.49
    ensures DeliveryCost(1.0, Dimensions(20.0, 20.0, 20.0), "express") == 24.98
  {
    assert CostBeforeTier(2.0, Dimensions(10.0, 10.0, 10.0)) == 11.49;
    assert DeliveryCostCents(2.0, Dimensions(10.0, 10.0, 10.0), "standard") == 1149;
    assert CostBeforeTier(1.0, Dimensions(20.0, 20.0, 20.0)) == 12.49;
    assert DeliveryCostCents(1.0, Dimensions(20.0, 20.0, 20.0), "express") == 2498;
  }

  /** Scaling a cost by a positive tier and cents keeps the order. */
  lemma ScaledCostMonotone(a: real, b: real, m: int)
    requires a <= b && m >= 1
    ensures RoundHalfUp(a * m as real * 100.0) <= RoundHalfUp(b * m as real * 100.0)
  {
    assert a * m as real <= b * m as real by {
      assert (b - a) * m as real >= 0.0;
    }
    RoundHalfUpMonotone(a * m as real * 100.0, b * m as real * 100.0);
  }

  /** More weight never costs less. */
  lemma CostMonotoneInWeight(w1: real, w2: real, d: Dimensions, deliveryType: string)
    requires w1 <= w2
    ensures DeliveryCost(w1, d, deliveryType) <= DeliveryCost(w2, d, deliveryType)
  {
    ScaledCostMonotone(CostBeforeTier(w1, d), CostBeforeTier(w2, d), Multiplier(deliveryType));
  }

  /** A longer, wider or higher parcel never costs less, as long as the
      other dimensions are not negative. */
  lemma CostMonotoneInDimensions(weight: real, d1: Dimensions, d2: Dimensions, deliveryType: string)
    requires 0.0 <= d1.length <= d2.length
    requires 0.0 <= d1.width <= d2.width
    requires 0.0 <= d1.height <= d2.height
    ensures DeliveryCost(weight, d1, deliveryType) <= DeliveryCost(weight, d2, deliveryType)
  {
    VolumeMonotone(d1, d2);
    ScaledCostMonotone(CostBeforeTier(weight, d1), CostBeforeTier(weight, d2), Multiplier(deliveryType));
  }

  lemma VolumeMonotone(d1: Dimensions, d2: Dimensions)
    requires 0.0 <= d1.length <= d2.length
    requires 0.0 <= d1.width <= d2.width
    requires 0.0 <= d1.height <= d2.height
    ensures d1.length * d1.width * d1.height <= d2.length * d2.width * d2.height
  {
    var lw1, lw2 := d1.length * d1.width, d2.length * d2.width;
    assert lw1 <= d2.length * d1.width by {
      assert (d2.length - d1.length) * d1.width >= 0.0;
    }
    assert d2.length * d1.width <= lw2 by {
      assert d2.length * (d2.width - d1.width) >= 0.0;
    }
    assert 0.0 <= lw1;
    assert lw1 * d1.height <= lw2 * d1.height by {
      assert (lw2 - lw1) * d1.height >= 0.0;
    }
    assert lw2 * d1.height <= lw2 * d2.height by {
      assert lw2 * (d2.height - d1.height) >= 0.0;
    }
  }

  /** Express never costs less than standard for a parcel with
      non-negative weight and dimensions, and same-day never less than express. */
  lemma TierOrder(weight: real, d: Dimensions)
    requires weight >= 0.0 && d.length >= 0.0 && d.width >= 0.0 && d.height >= 0.0
    ensures DeliveryCost(weight, d, "standard") <= DeliveryCost(weight, d, "express")
    ensures DeliveryCost(weight, d, "express") <= DeliveryCost(weight, d, "same-day")
  {
    var raw := CostBeforeTier(weight, d);
    VolumeMonotone(Dimensions(0.0, 0.0, 0.0), d);
    assert raw >= BASE_RATE;
    RoundHalfUpMonotone(raw * 1.0 * 100.0, raw * 2.0 * 100.0);
    RoundHalfUpMonotone(raw * 2.0 * 100.0, raw * 3.0 * 100.0);
  }

  /** With non-negative weight and dimensions the cost is at least the
      base rate times the multiplier, which is already a whole number of
      cents. */
  lemma CostAtLeastBase(weight: real, d: Dimensions, deliveryType: string)
    requires weight >= 0.0 && d.length >= 0.0 && d.width >= 0.0 && d.height >= 0.0
    ensures DeliveryCostCents(weight, d, deliveryType) >= 599 * Multiplier(deliveryType)
    ensures DeliveryCost(weight, d, deliveryType) >= BASE_RATE * Multiplier(deliveryType) as real
  {
    var m := Multiplier(deliveryType);
    VolumeMonotone(Dimensions(0.0, 0.0, 0.0), d);
    ScaledCostMonotone(BASE_RATE, CostBeforeTier(weight, d), m);
    assert RoundHalfUp(BASE_RATE * m as real * 100.0) == 599 * m;
  }

  // ---------------------------------------------------------------------
  // Counting parcels by status (the dashboards' `filter(...).length`)
  // ---------------------------------------------------------------------

  /** The statuses of a list of parcels, in order. */
  function Statuses(ps: seq<Parcel>): (r: seq<Status>)
    ensures |r| == |ps|
    ensures forall i :: 0 <= i < |ps| ==> r[i] == ps[i].status
  {
    if ps == [] then [] else [ps[0].status] + Statuses(ps[1..])
  }

  /** How many parcels carry status `s`. */
  function Tally(ps: seq<Parcel>, s: Status): nat {
    multiset(Statuses(ps))[s]
  }

  /** The number of parcels whose status is one of `among`. */
  function CountIn(ps: seq<Parcel>, among: set<Status>): (n: nat)
    ensures n <= |ps|
  {
    |Filter(ps, (p: Parcel) => p.status in among)|
  }

  /** Any filter that accepts exactly the statuses in `among` counts as
      `CountIn` does. */
  lemma CountInFilter(ps: seq<Parcel>, among: set<Status>, keep: Parcel -> bool)
    requires forall p :: keep(p) == (p.status in among)
    ensures |Filter(ps, keep)| == CountIn(ps, among)
  {
    FilterSameKeep(ps, keep, (p: Parcel) => p.status in among);
  }

  /** Counting one status with a filter gives its tally. */
  lemma {:induction false} CountInSingle(ps: seq<Parcel>, s: Status)
    ensures CountIn(ps, {s}) == Tally(ps, s)
  {
    if ps != [] {
      CountInSingle(ps[1..], s);
      assert Statuses(ps) == [ps[0].status] + Statuses(ps[1..]);
    }
  }

  /** Counts over disjoint sets of statuses add up. */
  lemma CountInUnion(ps: seq<Parcel>, a: set<Status>, b: set<Status>)
    requires a !! b
    ensures CountIn(ps, a) + CountIn(ps, b) == CountIn(ps, a + b)
  {
    FilterDisjointUnion(ps, (p: Parcel) => p.status in a, (p: Parcel) => p.status in b, (p: Parcel) => p.status in a + b);
  }

  /** Two statuses counted together: the sum of their tallies. */
  lemma CountInPair(ps: seq<Parcel>, s: Status, t: Status)
    requires s != t
    ensures CountIn(ps, {s, t}) == Tally(ps, s) + Tally(ps, t)
  {
    CountInUnion(ps, {s}, {t});
    assert {s} + {t} == {s, t};
    CountInSingle(ps, s);
    CountInSingle(ps, t);
  }

  /** Counting every status counts every parcel. */
  lemma CountInAll(ps: seq<Parcel>, among: set<Status>)
    requires forall i :: 0 <= i < |ps| ==> ps[i].status in among
    ensures CountIn(ps, among) == |ps|
  {
    FilterAcceptingAll(ps, (p: Parcel) => p.status in among);
  }
}
