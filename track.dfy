/** The public tracking page of `src/pages/Track.tsx`: the tracking-id
    schema, the lookup, and the view it builds from a parcel (origin,
    destination, delivery estimate and a timeline of past and future
    steps). */
module Track {
  import opened Common
  import opened Parcels

  // ---------------------------------------------------------------------
  // The tracking id
  // ---------------------------------------------------------------------

  /** `trackingSchema`: 3 to 20 characters, counted before trimming. */
  predicate TrackingIdValid(text: string) {
    3 <= |text| <= 20
  }

  /** `s` without trailing white space. */
  function TrimEnd(s: string): (r: string)
    ensures |r| <= |s| && r == s[..|r|]
    ensures r == [] || !IsJsSpace(r[|r| - 1])
  {
    if s != [] && IsJsSpace(s[|s| - 1]) then TrimEnd(s[..|s| - 1]) else s
  }

  /** Only white space is cut off the end. */
  lemma {:induction false} TrimEndCutsOnlySpace(s: string)
    ensures forall i :: |TrimEnd(s)| <= i < |s| ==> IsJsSpace(s[i])
  {
    if s != [] && IsJsSpace(s[|s| - 1]) {
      TrimEndCutsOnlySpace(s[..|s| - 1]);
      forall i | |TrimEnd(s)| <= i < |s| - 1
        ensures IsJsSpace(s[i])
      {
        assert s[i] == s[..|s| - 1][i];
      }
    }
  }

  /** `String.prototype.trim`: white space removed from both ends. */
  function Trim(s: string): (r: string)
    ensures |r| <= |s|
    ensures r == [] || (!IsJsSpace(r[0]) && !IsJsSpace(r[|r| - 1]))
    ensures CutsOnlySpace(s, |s| - |SkipSpace(s)|, r)
  {
    TrimStartsClean(s);
    TrimCutsOnlySpace(s);
    TrimEnd(SkipSpace(s))
  }

  /** `r` is the stretch of `s` that starts at `k`, and only white space
      comes before and after it. */
  predicate CutsOnlySpace(s: string, k: nat, r: string) {
    k + |r| <= |s| && r == s[k..k + |r|] && OnlySpace(s, 0, k) && OnlySpace(s, k + |r|, |s|)
  }

  /** `s[from..to]` is all white space. */
  predicate OnlySpace(s: string, from: nat, to: nat) {
    forall i :: from <= i < to && i < |s| ==> IsJsSpace(s[i])
  }

  lemma TrimCutsOnlySpace(s: string)
    ensures CutsOnlySpace(s, |s| - |SkipSpace(s)|, TrimEnd(SkipSpace(s)))
  {
    var t := SkipSpace(s);
    var k := |s| - |t|;
    var r := TrimEnd(t);
    assert k + |r| <= |s| && r == s[k..k + |r|] by {
      PrefixOfSuffix(s, t, r);
    }
    assert OnlySpace(s, 0, k) by {
      SkipSpaceSkipsOnlySpace(s);
    }
    assert OnlySpace(s, k + |r|, |s|) by {
      TrimCutsTrailingSpace(s);
    }
  }

  /** What trimming keeps starts with a character that is not white space. */
  lemma TrimStartsClean(s: string)
    ensures var r := TrimEnd(SkipSpace(s)); r == [] || !IsJsSpace(r[0])
  {
    var t := SkipSpace(s);
    TrimEndCutsOnlySpace(t);
    assert t != [] ==> |TrimEnd(t)| >= 1;
  }

  /** Only white space follows the stretch trimming keeps. */
  lemma TrimCutsTrailingSpace(s: string)
    ensures var t := SkipSpace(s); var k := |s| - |t|; var r := TrimEnd(t);
              forall i :: k + |r| <= i < |s| ==> IsJsSpace(s[i])
  {
    var t := SkipSpace(s);
    var k := |s| - |t|;
    var r := TrimEnd(t);
    TrimEndCutsOnlySpace(t);
    forall i | k + |r| <= i < |s|
      ensures IsJsSpace(s[i])
    {
      assert s[i] == t[i - k];
    }
  }

  /** A prefix `r` of a suffix `t` of `s` is the stretch of `s` that starts
      where `t` does. */
  lemma PrefixOfSuffix(s: string, t: string, r: string)
    requires |t| <= |s| && t == s[|s| - |t|..] && |r| <= |t| && r == t[..|r|]
    ensures r == s[|s| - |t|..|s| - |t| + |r|]
  {
  }

  /** Text without surrounding white space is left as it is, so trimming
      twice is trimming once. */
  lemma TrimUnpadded(s: string)
    requires s == [] || (!IsJsSpace(s[0]) && !IsJsSpace(s[|s| - 1]))
    ensures Trim(s) == s
  {
  }

  lemma TrimIdempotent(s: string)
    ensures Trim(Trim(s)) == Trim(s)
  {
    TrimUnpadded(Trim(s));
  }

  /** The schema looks at the untrimmed text, so an accepted id can be
      shorter than three characters once trimmed. */
  lemma AcceptedIdCanTrimShort()
    ensures TrackingIdValid("  a") && |Trim("  a")| == 1
  {
    assert SkipSpace("  a") == "a" by {
      assert "  a"[1..] == " a" && " a"[1..] == "a";
    }
  }

  // ---------------------------------------------------------------------
  // Descriptions and future steps
  // ---------------------------------------------------------------------

  /** `getStatusDescription`: text for six statuses, "Status update" for
      any other string. */
  function StatusDescription(status: string): (d: string)
    ensures d == "Status update" <==>
              status !in {"PENDING", "PICKED_UP", "IN_TRANSIT", "OUT_FOR_DELIVERY", "DELIVERED", "CANCELLED"}
  {
    match status
    case "PENDING" => "Parcel request created and awaiting pickup"
    case "PICKED_UP" => "Parcel collected from sender"
    case "IN_TRANSIT" => "Parcel is on its way to destination"
    case "OUT_FOR_DELIVERY" => "Parcel is out for final delivery"
    case "DELIVERED" => "Parcel successfully delivered"
    case "CANCELLED" => "Parcel delivery cancelled"
    case _ => "Status update"
  }

  datatype Step = Step(status: Status, description: string)

  /** The fixed course a parcel is expected to follow. */
  const ALL_STEPS: seq<Step> := [
    Step(Pending, "Parcel request created"),
    Step(PickedUp, "Parcel collected from sender"),
    Step(InTransit, "Parcel is on its way"),
    Step(OutForDelivery, "Parcel out for delivery"),
    Step(Delivered, "Parcel delivered successfully")]

  /** `findIndex` over the steps from position `from`: the first step at or
      after it whose status name is `status`, or -1. */
  function FindStepFrom(status: string, from: nat): (i: int)
    requires from <= |ALL_STEPS|
    ensures i == -1 || from <= i < |ALL_STEPS|
    ensures i >= 0 ==> StatusName(ALL_STEPS[i].status) == status
    ensures forall j :: from <= j < |ALL_STEPS| && (i == -1 || j < i) ==> StatusName(ALL_STEPS[j].status) != status
    decreases |ALL_STEPS| - from
  {
    if from == |ALL_STEPS| then -1
    else if StatusName(ALL_STEPS[from].status) == status then from
    else FindStepFrom(status, from + 1)
  }

  function FindStep(status: string): (i: int)
    ensures -1 <= i < |ALL_STEPS|
  {
    FindStepFrom(status, 0)
  }

  /** One entry of the tracking timeline. */
  datatype TimelineEntry = TimelineEntry(
    status: string, location: string, timestamp: string, completed: bool, description: string)

  /** A step not reached yet. */
  function StepEntry(s: Step): TimelineEntry {
    TimelineEntry(StatusName(s.status), "Estimated", "Pending", false, s.description)
  }

  function StepEntries(steps: seq<Step>): (r: seq<TimelineEntry>)
    ensures |r| == |steps|
    ensures forall i :: 0 <= i < |steps| ==> r[i] == StepEntry(steps[i])
  {
    if steps == [] then [] else [StepEntry(steps[0])] + StepEntries(steps[1..])
  }

  /** `getFutureSteps`: the steps after the current status, all of them
      when the status is not on the course. */
  function FutureSteps(currentStatus: string): (r: seq<TimelineEntry>)
    ensures |r| <= |ALL_STEPS|
    ensures forall e :: e in r ==> !e.completed && e.location == "Estimated" && e.timestamp == "Pending"
  {
    StepEntries(ALL_STEPS[FindStep(currentStatus) + 1..])
  }

  /** The future steps of a status on the course are exactly the course
      after its position. */
  lemma FutureStepsAfter(s: Status, i: nat)
    requires i < |ALL_STEPS| && ALL_STEPS[i].status == s
    ensures FutureSteps(StatusName(s)) == StepEntries(ALL_STEPS[i + 1..])
  {
    var k := FindStep(StatusName(s));
    assert 0 <= k <= i;
    StatusNameInjective(ALL_STEPS[k].status, s);
    StepsDistinct(k, i);
  }

  /** No status occurs twice on the course. */
  lemma StepsDistinct(k: nat, i: nat)
    requires k < |ALL_STEPS| && i < |ALL_STEPS|
    requires ALL_STEPS[k].status == ALL_STEPS[i].status
    ensures k == i
  {
  }

  /** A status off the course (APPROVED, RETURNED, HELD, ...) is found
      nowhere, so all five steps follow, starting with PENDING. */
  lemma FutureStepsOffCourse(s: Status)
    requires s !in {Pending, PickedUp, InTransit, OutForDelivery, Delivered}
    ensures FutureSteps(StatusName(s)) == StepEntries(ALL_STEPS)
    ensures |FutureSteps(StatusName(s))| == 5 && FutureSteps(StatusName(s))[0].status == "PENDING"
  {
    forall j | 0 <= j < |ALL_STEPS| ensures StatusName(ALL_STEPS[j].status) != StatusName(s) {
      StatusNameInjective(ALL_STEPS[j].status, s);
    }
    assert ALL_STEPS[0..] == ALL_STEPS;
  }

  /** From IN_TRANSIT the page predicts OUT_FOR_DELIVERY, then DELIVERED. */
  lemma FutureStepsFromInTransit()
    ensures |FutureSteps("IN_TRANSIT")| == 2
    ensures FutureSteps("IN_TRANSIT")[0].status == "OUT_FOR_DELIVERY"
    ensures FutureSteps("IN_TRANSIT")[1].status == "DELIVERED"
  {
    FutureStepsAfter(InTransit, 2);
  }

  // ---------------------------------------------------------------------
  // The view
  // ---------------------------------------------------------------------

  /** "city, state" of an address, empty parts for absent ones. */
  function CityState(a: Address): string {
    a.city + ", " + a.state
  }

  /** The timeline entry for history item `index`: completed, with the
      pickup (first item) or delivery (later items) "city, state" when the
      item has no location, and the status description when it has no note. */
  function LogEntry(p: Parcel, index: nat, log: HistoryEntry): TimelineEntry {
    TimelineEntry(
      log.status,
      if log.location != "" then log.location
      else if index == 0 then CityState(p.pickupAddress)
      else CityState(p.deliveryAddress),
      log.timestamp,
      true,
      if log.note != "" then log.note else StatusDescription(log.status))
  }

  /** The history items from position `start` on, as timeline entries. */
  function LogEntries(p: Parcel, start: nat): (r: seq<TimelineEntry>)
    requires start <= |p.statusHistory|
    ensures |r| == |p.statusHistory| - start
    ensures forall i :: 0 <= i < |r| ==> r[i] == LogEntry(p, start + i, p.statusHistory[start + i])
    decreases |p.statusHistory| - start
  {
    if start == |p.statusHistory| then []
    else [LogEntry(p, start, p.statusHistory[start])] + LogEntries(p, start + 1)
  }

  /** The `statusHistory.map(...)` part of the timeline. */
  function HistoryTimeline(p: Parcel): (r: seq<TimelineEntry>)
    ensures |r| == |p.statusHistory|
    ensures forall i :: 0 <= i < |r| ==> r[i].completed && r[i].status == p.statusHistory[i].status
    ensures forall i :: 0 <= i < |r| ==> r[i].timestamp == p.statusHistory[i].timestamp
  {
    LogEntries(p, 0)
  }

  /** Description and location fall back only when the item leaves them
      empty. */
  lemma HistoryTimelineFallbacks(p: Parcel, i: nat)
    requires i < |p.statusHistory|
    ensures var e := HistoryTimeline(p)[i];
            var log := p.statusHistory[i];
            && (log.note != "" ==> e.description == log.note)
            && (log.note == "" ==> e.description == StatusDescription(log.status))
            && (log.location != "" ==> e.location == log.location)
            && (log.location == "" && i == 0 ==> e.location == CityState(p.pickupAddress))
            && (log.location == "" && i > 0 ==> e.location == CityState(p.deliveryAddress))
  {
  }

  /** Whether the page predicts further steps for a parcel. */
  predicate HasFuture(s: Status) {
    s != Delivered && s != Cancelled
  }

  /** `trackingData`. `deliveryType` holds the parcel type, as the page
      fills it; the delivery estimate is `None` when the parcel has no
      creation date. */
  datatype TrackingView = TrackingView(
    id: string,
    status: Status,
    sender: string,
    receiver: string,
    origin: string,
    destination: string,
    estimatedDelivery: Option<int>,
    cost: real,
    weight: real,
    dimensions: Dimensions,
    deliveryType: string,
    createdAt: Option<int>,
    timeline: seq<TimelineEntry>)

  /** The estimate the page shows: three days after creation. */
  function TrackEstimatedDelivery(p: Parcel): (eta: Option<int>)
    ensures eta.Some? <==> p.createdAt.Some?
    ensures eta.Some? ==> eta.value - p.createdAt.value == 259_200_000
  {
    if p.createdAt.Some? then Some(p.createdAt.value + THREE_DAYS_MS) else None
  }

  /** The view before any future step is added. */
  function BaseView(p: Parcel): TrackingView {
    TrackingView(
      p.trackingId, p.status, p.sender.name, p.receiver.name,
      CityState(p.pickupAddress), CityState(p.receiver.address),
      TrackEstimatedDelivery(p), p.cost, p.weight, p.dimensions, p.parcelType, p.createdAt,
      HistoryTimeline(p))
  }

  /** The whole timeline: the history, then, unless the parcel is
      delivered or cancelled, the future steps. */
  function FullTimeline(p: Parcel): seq<TimelineEntry> {
    HistoryTimeline(p) + if HasFuture(p.status) then FutureSteps(StatusName(p.status)) else []
  }

  /** The timeline keeps the history entries first and in order; exactly
      those are completed; at most five predicted steps follow, and none
      for a delivered or cancelled parcel. */
  lemma FullTimelineShape(p: Parcel)
    ensures var t := FullTimeline(p);
            && |p.statusHistory| <= |t| <= |p.statusHistory| + |ALL_STEPS|
            && t[..|p.statusHistory|] == HistoryTimeline(p)
            && (!HasFuture(p.status) ==> |t| == |p.statusHistory|)
            && forall i :: 0 <= i < |t| ==> (t[i].completed <==> i < |p.statusHistory|)
  {
    var h := HistoryTimeline(p);
    var f := if HasFuture(p.status) then FutureSteps(StatusName(p.status)) else [];
    var t := h + f;
    assert t[..|h|] == h;
    forall i | 0 <= i < |t| ensures t[i].completed <==> i < |h| {
      if i >= |h| {
        assert t[i] == f[i - |h|];
        assert f[i - |h|] in f;
      }
    }
  }

  /** `timeline.push(...steps)`: each step appended in order. */
  method PushAll(timeline: seq<TimelineEntry>, steps: seq<TimelineEntry>) returns (r: seq<TimelineEntry>)
    ensures r == timeline + steps
  {
    r := timeline;
    var k := 0;
    while k < |steps|
      invariant 0 <= k <= |steps|
      invariant r == timeline + steps[..k]
    {
      r := r + [steps[k]];
      assert steps[..k + 1] == steps[..k] + [steps[k]];
      k := k + 1;
    }
    assert steps[..|steps|] == steps;
  }

  /** The body of `onSubmit` once a parcel is found: the history timeline,
      then, unless the parcel is delivered or cancelled, the future steps
      pushed onto it. */
  method BuildTrackingView(p: Parcel) returns (view: TrackingView)
    ensures view == BaseView(p).(timeline := FullTimeline(p))
  {
    var timeline := HistoryTimeline(p);
    if HasFuture(p.status) {
      timeline := PushAll(timeline, FutureSteps(StatusName(p.status)));
    }
    view := BaseView(p).(timeline := timeline);
  }

  // ---------------------------------------------------------------------
  // The page
  // ---------------------------------------------------------------------

  const NOT_FOUND_MESSAGE := "Parcel not found. Please check your tracking ID and try again."
  const LOOKUP_FAILED_MESSAGE := "An error occurred while tracking your parcel. Please try again."

  /** How the lookup of a tracking id ended. */
  datatype Lookup = Found(parcel: Parcel) | NotFound | Failed

  /** The page's `error` and `trackingResult` state. */
  class TrackPage {
    var error: Option<string>
    var trackingResult: Option<TrackingView>

    constructor ()
      ensures error.None? && trackingResult.None?
    {
      error, trackingResult := None, None;
    }

    /** `onSubmit` for a schema-valid id: looks up the trimmed id, then
      shows the parcel's view or one of two error messages, never both. */
    method Submit(trackingId: string, lookup: Lookup) returns (query: string)
      requires TrackingIdValid(trackingId)
      modifies this
      ensures query == Trim(trackingId)
      ensures error.None? <==> trackingResult.Some?
      ensures lookup.NotFound? ==> error == Some(NOT_FOUND_MESSAGE)
      ensures lookup.Failed? ==> error == Some(LOOKUP_FAILED_MESSAGE)
      ensures lookup.Found? ==> trackingResult == Some(BaseView(lookup.parcel).(timeline := FullTimeline(lookup.parcel)))
    {
      error, trackingResult := None, None;
      query := Trim(trackingId);
      match lookup
      case NotFound =>
        error := Some(NOT_FOUND_MESSAGE);
      case Failed =>
        error := Some(LOOKUP_FAILED_MESSAGE);
      case Found(p) =>
        var view := BuildTrackingView(p);
        trackingResult := Some(view);
    }
  }

  // ---------------------------------------------------------------------
  // Status badge colour
  // ---------------------------------------------------------------------

  /** The colour the page's switch gives an already lower-cased status. */
  function LoweredColor(lowered: string): (c: string)
    ensures c in {GREEN, BLUE, YELLOW, RED, GRAY}
    ensures c == GREEN <==> lowered == "delivered"
    ensures c == BLUE <==> lowered in {"in transit", "out for delivery"}
    ensures c == YELLOW <==> lowered in {"pending", "picked up"}
    ensures c == RED <==> lowered == "cancelled"
    ensures c == GRAY <==> lowered !in {"delivered", "in transit", "out for delivery", "pending", "picked up", "cancelled"}
  {
    match lowered
    case "delivered" => GREEN
    case "in transit" => BLUE
    case "out for delivery" => BLUE
    case "pending" => YELLOW
    case "picked up" => YELLOW
    case "cancelled" => RED
    case _ => GRAY
  }

  /** The page's own `getStatusColor`, as written: it compares the
      lower-cased status with space-separated names. */
  function TrackStatusColorAsWritten(status: string): (c: string)
    ensures c in {GREEN, BLUE, YELLOW, RED, GRAY}
  {
    LoweredColor(Lower(status))
  }

  /** Lower-casing checked character by character. */
  lemma LowerIs(s: string, t: string)
    requires |s| == |t| && forall i :: 0 <= i < |s| ==> LowerChar(s[i]) == t[i]
    ensures Lower(s) == t
  {
  }

  /** Lower-casing of the spaced words checked character by character. */
  lemma SpacedLowerIs(s: string, t: string)
    requires |s| == |t|
    requires forall i :: 0 <= i < |s| ==> LowerChar(if s[i] == '_' then ' ' else s[i]) == t[i]
    ensures Lower(SpacedWords(s)) == t
  {
    LowerIs(SpacedWords(s), t);
  }

  /** The corrected colour of a status, read off its lower-cased words. */
  lemma ColorThroughWords(status: string, lowered: string)
    requires |status| == |lowered|
    requires forall i :: 0 <= i < |status| ==> LowerChar(if status[i] == '_' then ' ' else status[i]) == lowered[i]
    ensures TrackStatusColor(status) == LoweredColor(lowered)
  {
    SpacedLowerIs(status, lowered);
  }

  /** An underscore survives lower-casing. */
  lemma LowerKeepsUnderscore(s: string)
    requires '_' in s
    ensures '_' in Lower(s)
  {
    var k :| 0 <= k < |s| && s[k] == '_';
    assert Lower(s)[k] == '_';
  }

  /** No name the switch compares with has an underscore, so any status
      with one is painted gray: IN_TRANSIT, OUT_FOR_DELIVERY and PICKED_UP
      among them. */
  lemma TrackStatusColorAsWrittenMisses(status: string)
    requires '_' in status
    ensures TrackStatusColorAsWritten(status) == GRAY
  {
    LowerKeepsUnderscore(status);
    assert '_' !in "delivered";
    assert '_' !in "in transit";
    assert '_' !in "out for delivery";
    assert '_' !in "pending";
    assert '_' !in "picked up";
    assert '_' !in "cancelled";
  }

  /** `s` with every underscore turned into a space. */
  function SpacedWords(s: string): (r: string)
    ensures |r| == |s|
    ensures forall i :: 0 <= i < |s| ==> r[i] == if s[i] == '_' then ' ' else s[i]
  {
    if s == [] then [] else [if s[0] == '_' then ' ' else s[0]] + SpacedWords(s[1..])
  }

  /** The colour map as evidently meant: the status's words compared with
      the names. */
  function TrackStatusColor(status: string): (c: string)
    ensures c in {GREEN, BLUE, YELLOW, RED, GRAY}
  {
    LoweredColor(Lower(SpacedWords(status)))
  }

  lemma DeliveredIsGreen()
    ensures TrackStatusColor(StatusName(Delivered)) == GREEN
  {
    ColorThroughWords(StatusName(Delivered), "delivered");
  }

  lemma MovingIsBlue(s: Status)
    requires s == InTransit || s == OutForDelivery
    ensures TrackStatusColor(StatusName(s)) == BLUE
  {
    if s == InTransit {
      ColorThroughWords(StatusName(s), "in transit");
    } else {
      ColorThroughWords(StatusName(s), "out for delivery");
    }
  }

  lemma WaitingIsYellow(s: Status)
    requires s == Pending || s == PickedUp
    ensures TrackStatusColor(StatusName(s)) == YELLOW
  {
    if s == Pending {
      ColorThroughWords(StatusName(s), "pending");
    } else {
      ColorThroughWords(StatusName(s), "picked up");
    }
  }

  lemma CancelledIsRed()
    ensures TrackStatusColor(StatusName(Cancelled)) == RED
  {
    ColorThroughWords(StatusName(Cancelled), "cancelled");
    CancelledNameIsRed();
  }

  /** "cancelled" is none of the earlier names, although "delivered" and
      "picked up" have its length. */
  lemma CancelledNameIsRed()
    ensures LoweredColor("cancelled") == RED
  {
    assert "cancelled"[0] == 'c';
    assert "cancelled" != "delivered" && "cancelled" != "picked up";
  }

  /** Every status the switch names gets its colour once corrected. */
  lemma TrackStatusColorIntended(s: Status)
    ensures s == Delivered ==> TrackStatusColor(StatusName(s)) == GREEN
    ensures s == InTransit || s == OutForDelivery ==> TrackStatusColor(StatusName(s)) == BLUE
    ensures s == Pending || s == PickedUp ==> TrackStatusColor(StatusName(s)) == YELLOW
    ensures s == Cancelled ==> TrackStatusColor(StatusName(s)) == RED
  {
    if s == Delivered {
      DeliveredIsGreen();
    } else if s == InTransit || s == OutForDelivery {
      MovingIsBlue(s);
    } else if s == Pending || s == PickedUp {
      WaitingIsYellow(s);
    } else if s == Cancelled {
      CancelledIsRed();
    }
  }

  /** The three statuses whose names hold an underscore are painted gray as
      written, and in their own colour once corrected. */
  lemma TrackStatusColorAsWrittenDiffers(s: Status)
    requires s == PickedUp || s == InTransit || s == OutForDelivery
    ensures TrackStatusColorAsWritten(StatusName(s)) == GRAY
    ensures TrackStatusColor(StatusName(s)) != GRAY
  {
    TrackStatusColorIntended(s);
    var name := StatusName(s);
    if s == PickedUp {
      assert name[6] == '_';
    } else if s == InTransit {
      assert name[2] == '_';
    } else {
      assert name[3] == '_';
    }
    TrackStatusColorAsWrittenMisses(name);
  }

  /** On text without underscores the correction changes nothing. */
  lemma TrackStatusColorKeepsWords(status: string)
    requires '_' !in status
    ensures TrackStatusColor(status) == TrackStatusColorAsWritten(status)
  {
    assert SpacedWords(status) == status;
  }
}
