/** The admin's user table, `src/components/modules/Admin/UsersManagement.tsx`:
    its filter, the block/unblock toggle, the "last activity" buckets and
    the summary counts. */
module UsersManagement {
  import opened Common
  import opened Auth

  /** `UserWithStatus`: a user as the admin list returns it. */
  datatype UserWithStatus = UserWithStatus(user: User, isBlocked: bool, parcelCount: int, lastActivity: string)

  // ---------------------------------------------------------------------
  // The filter
  // ---------------------------------------------------------------------

  /** The search box: the lower-cased term occurs in the name or email. */
  predicate MatchesSearch(term: string, u: UserWithStatus) {
    var t := Lower(term);
    Includes(Lower(u.user.name), t) || Includes(Lower(u.user.email), t)
  }

  /** The role select: "all" or exactly the user's role. */
  predicate MatchesRole(roleFilter: string, u: UserWithStatus) {
    roleFilter == "all" || u.user.role == roleFilter
  }

  /** The status select: "all" or exactly the user's activity state; a
      user without one matches only "all". */
  predicate MatchesStatus(statusFilter: string, u: UserWithStatus) {
    statusFilter == "all" || (u.user.isActive.Some? && statusFilter == IsActiveName(u.user.isActive.value))
  }

  predicate UserKeeps(term: string, roleFilter: string, statusFilter: string, u: UserWithStatus) {
    MatchesSearch(term, u) && MatchesRole(roleFilter, u) && MatchesStatus(statusFilter, u)
  }

  /** `filteredUsers`: the users matching the search and both selects, in
      list order. */
  function FilteredUsers(users: seq<UserWithStatus>, term: string, roleFilter: string, statusFilter: string): (r: seq<UserWithStatus>)
    ensures |r| <= |users|
    ensures forall u :: u in r <==>
      u in users && MatchesSearch(term, u) && MatchesRole(roleFilter, u) && MatchesStatus(statusFilter, u)
  {
    var r := Filter(users, u => UserKeeps(term, roleFilter, statusFilter, u));
    forall u ensures u in r <==> u in users && UserKeeps(term, roleFilter, statusFilter, u) {
      FilterMembership(users, u => UserKeeps(term, roleFilter, statusFilter, u), u);
    }
    r
  }

  /** Choosing a status shows only users in that state. */
  lemma StatusFilterSelects(users: seq<UserWithStatus>, term: string, roleFilter: string, a: IsActive, u: UserWithStatus)
    requires u in FilteredUsers(users, term, roleFilter, IsActiveName(a))
    ensures u.user.isActive == Some(a)
  {
    IsActiveValues(IsActiveName(a), a);
    IsActiveValues(IsActiveName(a), u.user.isActive.value);
  }

  // ---------------------------------------------------------------------
  // Block and unblock
  // ---------------------------------------------------------------------

  /** The toggle is offered to receivers and senders only. */
  predicate ToggleOffered(u: UserWithStatus) {
    u.user.role == ROLE_RECEIVER || u.user.role == ROLE_SENDER
  }

  /** No admin, super admin or unknown role can be blocked from this page. */
  lemma ToggleNeverForAdmins(u: UserWithStatus)
    requires u.user.role !in {ROLE_RECEIVER, ROLE_SENDER}
    ensures !ToggleOffered(u)
  {
  }

  /** The state the toggle asks for: BLOCKED for an active user, ACTIVE
      for anyone else (blocked, inactive or without a state). */
  function ToggleTarget(current: Option<IsActive>): (target: IsActive)
    ensures target == Blocked <==> current == Some(Active)
    ensures target == Active <==> current != Some(Active)
  {
    if current == Some(Active) then Blocked else Active
  }

  /** Two toggles bring an active or a blocked user back where they
      started, but an inactive user (or one without a state) ends up
      blocked. */
  lemma ToggleTwice(current: Option<IsActive>)
    ensures current in {Some(Active), Some(Blocked)} ==> ToggleTarget(Some(ToggleTarget(current))) == current.value
    ensures current !in {Some(Active), Some(Blocked)} ==> ToggleTarget(Some(ToggleTarget(current))) == Blocked
  {
  }

  /** What `handleToggleBlock` does with the target. */
  datatype ToggleOutcome = InvalidUserId | Sent(id: string, isActive: IsActive)

  /** `handleToggleBlock`: an absent or empty id reports an error and sends
      nothing; otherwise only the new state is sent. */
  function ToggleRequest(userId: Option<string>, target: IsActive): (r: ToggleOutcome)
    ensures r.InvalidUserId? <==> userId.GetOr("") == ""
    ensures r.Sent? ==> userId == Some(r.id) && r.isActive == target
  {
    if userId.GetOr("") == "" then InvalidUserId else Sent(userId.value, target)
  }

  // ---------------------------------------------------------------------
  // Last activity
  // ---------------------------------------------------------------------

  const HOUR_MS: int := 1000 * 60 * 60

  /** What `formatLastActivity` shows: the bucket, with the hour count for
      "{h}h ago"; the date text itself is not modelled. */
  datatype ActivityLabel = JustNow | HoursAgo(hours: nat) | Yesterday | FormattedDate

  /** `formatLastActivity(t)` at time `now`, both in milliseconds; `t` is
      `None` when the text is not a date, and then every comparison with
      the not-a-number difference is false. Dafny's `/` rounds down for a
      positive divisor, as `Math.floor` does. The buckets are stated
      without division: under an hour (or in the future), under a day,
      under two days, and the rest. */
  function FormatLastActivity(now: int, t: Option<int>): (r: ActivityLabel)
    ensures r == JustNow <==> t.Some? && now - t.value < HOUR_MS
    ensures r.HoursAgo? <==> t.Some? && HOUR_MS <= now - t.value < 24 * HOUR_MS
    ensures r.HoursAgo? ==> r.hours * HOUR_MS <= now - t.value < (r.hours + 1) * HOUR_MS
    ensures r == Yesterday <==> t.Some? && 24 * HOUR_MS <= now - t.value < 48 * HOUR_MS
    ensures r == FormattedDate <==> t.None? || now - t.value >= 48 * HOUR_MS
  {
    if t.None? then FormattedDate
    else
      var hours := (now - t.value) / HOUR_MS;
      if hours < 1 then JustNow
      else if hours < 24 then HoursAgo(hours)
      else if hours < 48 then Yesterday
      else FormattedDate
  }

  /** The order of the buckets as time passes. */
  function BucketRank(l: ActivityLabel): nat {
    match l
    case JustNow => 0
    case HoursAgo(_) => 1
    case Yesterday => 2
    case FormattedDate => 3
  }

  /** As time passes a timestamp only moves to later buckets, and within
      "{h}h ago" the hour count never goes down. */
  lemma LastActivityMonotone(now1: int, now2: int, t: int)
    requires now1 <= now2
    ensures BucketRank(FormatLastActivity(now1, Some(t))) <= BucketRank(FormatLastActivity(now2, Some(t)))
    ensures FormatLastActivity(now1, Some(t)).HoursAgo? && FormatLastActivity(now2, Some(t)).HoursAgo? ==>
      FormatLastActivity(now1, Some(t)).hours <= FormatLastActivity(now2, Some(t)).hours
  {
  }

  /** The text shown for "{h}h ago": the hour count in decimal, which
      reads back as that count. */
  function HoursAgoText(hours: nat): (s: string)
    ensures |s| >= 6 && s[|s| - 5..] == "h ago"
    ensures forall i :: 0 <= i < |s| - 5 ==> IsDigit(s[i])
    ensures DigitsValue(s[..|s| - 5]) == hours
  {
    ShowNatValue(hours);
    var s := ShowNat(hours) + "h ago";
    assert s[..|s| - 5] == ShowNat(hours);
    s
  }

  // ---------------------------------------------------------------------
  // Summary
  // ---------------------------------------------------------------------

  predicate IsActiveUser(u: UserWithStatus) {
    u.user.isActive == Some(Active)
  }

  predicate IsBlockedUser(u: UserWithStatus) {
    u.user.isActive == Some(Blocked)
  }

  /** The summary line under a non-empty table: shown, total, active and
      blocked counts, the last two over the shown users. Active and blocked
      users are distinct, so the two counts add up to at most the shown
      count. */
  function Summary(users: seq<UserWithStatus>, filtered: seq<UserWithStatus>): (r: Option<(nat, nat, nat, nat)>)
    ensures r.Some? <==> |filtered| > 0
    ensures r.Some? ==> r.value.0 == |filtered| && r.value.1 == |users|
    ensures r.Some? ==> r.value.2 == |Filter(filtered, IsActiveUser)| && r.value.3 == |Filter(filtered, IsBlockedUser)|
    ensures r.Some? ==> r.value.2 + r.value.3 <= r.value.0
  {
    if |filtered| == 0 then None
    else
      var active := |Filter(filtered, IsActiveUser)|;
      var blocked := |Filter(filtered, IsBlockedUser)|;
      var either := (u: UserWithStatus) => IsActiveUser(u) || IsBlockedUser(u);
      FilterDisjointUnion(filtered, IsActiveUser, IsBlockedUser, either);
      Some((|filtered|, |users|, active, blocked))
  }

  /** With the status select on "ACTIVE" every shown user is counted
      active and none blocked. */
  lemma SummaryUnderActiveFilter(users: seq<UserWithStatus>, term: string, roleFilter: string)
    requires |FilteredUsers(users, term, roleFilter, "ACTIVE")| > 0
    ensures var f := FilteredUsers(users, term, roleFilter, "ACTIVE");
      Summary(users, f) == Some((|f|, |users|, |f|, 0))
  {
    var f := FilteredUsers(users, term, roleFilter, "ACTIVE");
    forall i | 0 <= i < |f|
      ensures IsActiveUser(f[i])
    {
      assert f[i] in f;
      IsActiveValues("ACTIVE", f[i].user.isActive.value);
    }
    FilterAcceptingAll(f, IsActiveUser);
    FilterRejectingAll(f, IsBlockedUser);
  }
}
