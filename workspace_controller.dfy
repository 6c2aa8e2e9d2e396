/** The dashboard handlers over a user's workspace and activity records:
    statistics, the workspace list, one workspace, and recent activity.
    Every handler first requires a signed-in session. The record store is
    passed in; database failures are outside the model. */
module WorkspaceController {
  import opened Wrappers
  import opened Text
  import opened Ordering
  import opened NumberParsing

  /** A stored workspace, reduced to the fields the handlers read. Times are
      milliseconds since the epoch. */
  datatype WorkspaceRecord = WorkspaceRecord(
    workspaceId: string,
    userId: string,
    status: string,
    collaborators: seq<string>,
    createdAt: int,
    lastAccessed: int)

  datatype ActivityRecord = ActivityRecord(userId: string, action: string, timestamp: int)

  /** What a handler answers: 401, 404, or 200 with a value. */
  datatype Reply<T> = Unauthorized | NotFound | Found(value: T)

  function StatusOf<T>(r: Reply<T>): nat {
    match r
    case Unauthorized => 401
    case NotFound => 404
    case Found(_) => 200
  }

  /** `req.session.userId` is truthy. */
  predicate SignedIn(userId: Option<string>) {
    userId.Some? && userId.value != ""
  }

  // ---------------------------------------------------------------------
  // Dashboard statistics
  // ---------------------------------------------------------------------

  datatype Stats = Stats(activeWorkspaces: nat, totalProjects: nat, collaborators: nat, hoursSaved: int)

  /** `Workspace.find({ userId })`. */
  function OwnedBy(records: seq<WorkspaceRecord>, userId: string): (r: seq<WorkspaceRecord>)
    ensures forall w :: w in r <==> w in records && w.userId == userId
  {
    if records == [] then []
    else (if records[0].userId == userId then [records[0]] else []) + OwnedBy(records[1..], userId)
  }

  /** `countDocuments({ userId, status: 'running' })`. */
  function ActiveCount(records: seq<WorkspaceRecord>, userId: string): nat {
    if records == [] then 0
    else (if records[0].userId == userId && records[0].status == "running" then 1 else 0)
         + ActiveCount(records[1..], userId)
  }

  /** `countDocuments({ userId, status: { $ne: 'deleted' } })`. */
  function ProjectCount(records: seq<WorkspaceRecord>, userId: string): nat {
    if records == [] then 0
    else (if records[0].userId == userId && records[0].status != "deleted" then 1 else 0)
         + ProjectCount(records[1..], userId)
  }

  /** A running workspace is not a deleted one, so the active count never
      exceeds the project count. */
  lemma {:induction false} ActiveAtMostTotal(records: seq<WorkspaceRecord>, userId: string)
    ensures ActiveCount(records, userId) <= ProjectCount(records, userId)
  {
    if records != [] {
      ActiveAtMostTotal(records[1..], userId);
    }
  }

  /** The distinct entries of a list. */
  function Elements(s: seq<string>): set<string> {
    set c | c in s
  }

  /** Every collaborator id listed on any of `records`. */
  function CollaboratorIds(records: seq<WorkspaceRecord>): set<string> {
    if records == [] then {}
    else CollaboratorIds(records[..|records| - 1]) + Elements(records[|records| - 1].collaborators)
  }

  /** The number of collaborator entries on `records`, repeats counted. */
  function CollaboratorEntries(records: seq<WorkspaceRecord>): nat {
    if records == [] then 0
    else CollaboratorEntries(records[..|records| - 1]) + |records[|records| - 1].collaborators|
  }

  lemma {:induction false} DistinctAtMostLength(s: seq<string>)
    ensures |Elements(s)| <= |s|
  {
    if s != [] {
      var init := s[..|s| - 1];
      DistinctAtMostLength(init);
      assert s == init + [s[|s| - 1]];
      assert Elements(s) == Elements(init) + {s[|s| - 1]};
    }
  }

  /** Distinct collaborators never outnumber collaborator entries. */
  lemma {:induction false} CollaboratorsAtMostEntries(records: seq<WorkspaceRecord>)
    ensures |CollaboratorIds(records)| <= CollaboratorEntries(records)
  {
    if records != [] {
      var last := records[|records| - 1];
      CollaboratorsAtMostEntries(records[..|records| - 1]);
      DistinctAtMostLength(last.collaborators);
    }
  }

  /** Adding one entry to a list adds exactly that entry to its elements. */
  lemma ElementsSnoc(s: seq<string>, c: string)
    ensures Elements(s + [c]) == Elements(s) + {c}
  {
    assert forall x :: x in s + [c] <==> x in s || x == c;
  }

  /** One more record contributes exactly its own collaborators. */
  lemma CollaboratorIdsSnoc(records: seq<WorkspaceRecord>, i: nat)
    requires i < |records|
    ensures CollaboratorIds(records[..i + 1]) == CollaboratorIds(records[..i]) + Elements(records[i].collaborators)
  {
    assert records[..i + 1][..i] == records[..i];
  }

  /** The nested `forEach` that fills a set with every collaborator id. */
  method DistinctCollaborators(records: seq<WorkspaceRecord>) returns (count: nat)
    ensures count == |CollaboratorIds(records)|
  {
    var seen: set<string> := {};
    var i := 0;
    while i < |records|
      invariant 0 <= i <= |records|
      invariant seen == CollaboratorIds(records[..i])
    {
      var collaborators := records[i].collaborators;
      var j := 0;
      while j < |collaborators|
        invariant 0 <= j <= |collaborators|
        invariant seen == CollaboratorIds(records[..i]) + Elements(collaborators[..j])
      {
        assert collaborators[..j + 1] == collaborators[..j] + [collaborators[j]];
        ElementsSnoc(collaborators[..j], collaborators[j]);
        seen := seen + {collaborators[j]};
        j := j + 1;
      }
      assert collaborators[..j] == collaborators;
      CollaboratorIdsSnoc(records, i);
      i := i + 1;
    }
    assert records[..i] == records;
    count := |seen|;
  }

  const MillisecondsPerDay := 1000 * 60 * 60 * 24

  /** `Math.floor(Math.floor((now - createdAt) / day) * 0.5)`: half of the
      whole days elapsed, rounded down (towards minus infinity, like
      `Math.floor`). */
  function HoursFor(w: WorkspaceRecord, now: int): int {
    ((now - w.createdAt) / MillisecondsPerDay) / 2
  }

  /** The `reduce` that sums `HoursFor` over the records, from 0. */
  function HoursSaved(records: seq<WorkspaceRecord>, now: int): int {
    if records == [] then 0
    else HoursSaved(records[..|records| - 1], now) + HoursFor(records[|records| - 1], now)
  }

  /** No workspace created in the future: the total is not negative. */
  lemma {:induction false} HoursSavedNonNegative(records: seq<WorkspaceRecord>, now: int)
    requires forall i :: 0 <= i < |records| ==> records[i].createdAt <= now
    ensures HoursSaved(records, now) >= 0
  {
    if records != [] {
      HoursSavedNonNegative(records[..|records| - 1], now);
    }
  }

  /** The total only grows as time passes. */
  lemma {:induction false} HoursSavedMonotone(records: seq<WorkspaceRecord>, now: int, later: int)
    requires now <= later
    ensures HoursSaved(records, now) <= HoursSaved(records, later)
  {
    if records != [] {
      HoursSavedMonotone(records[..|records| - 1], now, later);
      var w := records[|records| - 1];
      DayDivMonotone(now - w.createdAt, later - w.createdAt);
      HalfMonotone((now - w.createdAt) / MillisecondsPerDay, (later - w.createdAt) / MillisecondsPerDay);
    }
  }

  lemma DayDivMonotone(a: int, b: int)
    requires a <= b
    ensures a / MillisecondsPerDay <= b / MillisecondsPerDay
  {
  }

  lemma HalfMonotone(a: int, b: int)
    requires a <= b
    ensures a / 2 <= b / 2
  {
  }

  /** A workspace counts a whole hour saved per two full days of age. */
  lemma TwoDaysSaveAnHour(w: WorkspaceRecord)
    ensures HoursFor(w, w.createdAt + 2 * MillisecondsPerDay) == 1
    ensures HoursFor(w, w.createdAt + 2 * MillisecondsPerDay - 1) == 0
  {
  }

  /** `getDashboardStats`. */
  method DashboardStats(sessionUserId: Option<string>, records: seq<WorkspaceRecord>, now: int) returns (r: Reply<Stats>)
    ensures r.Unauthorized? <==> !SignedIn(sessionUserId)
    ensures !r.NotFound?
    ensures r.Found? ==>
      var owned := OwnedBy(records, sessionUserId.value);
      && r.value.activeWorkspaces == ActiveCount(records, sessionUserId.value)
      && r.value.totalProjects == ProjectCount(records, sessionUserId.value)
      && r.value.activeWorkspaces <= r.value.totalProjects
      && r.value.collaborators == |CollaboratorIds(owned)| <= CollaboratorEntries(owned)
      && r.value.hoursSaved == HoursSaved(owned, now)
  {
    if !SignedIn(sessionUserId) {
      return Unauthorized;
    }
    var userId := sessionUserId.value;
    var owned := OwnedBy(records, userId);
    var collaborators := DistinctCollaborators(owned);
    ActiveAtMostTotal(records, userId);
    CollaboratorsAtMostEntries(owned);
    r := Found(Stats(ActiveCount(records, userId), ProjectCount(records, userId), collaborators, HoursSaved(owned, now)));
  }

  // ---------------------------------------------------------------------
  // Workspace list
  // ---------------------------------------------------------------------

  /** The `status` condition of the list query: `{ $ne: 'deleted' }` unless
      a truthy `status` parameter replaced it. */
  datatype StatusCondition = NotEqual(excluded: string) | Equal(wanted: string)

  datatype Query = Query(userId: string, status: StatusCondition)

  /** Builds the query as the handler does: the default condition first,
      then overwritten by a truthy `status` parameter. */
  method BuildQuery(userId: string, statusParam: Option<string>) returns (query: Query)
    ensures query.userId == userId
    ensures (statusParam.Some? && statusParam.value != "") ==> query.status == Equal(statusParam.value)
    ensures !(statusParam.Some? && statusParam.value != "") ==> query.status == NotEqual("deleted")
  {
    query := Query(userId, NotEqual("deleted"));
    if statusParam.Some? && statusParam.value != "" {
      query := query.(status := Equal(statusParam.value));
    }
  }

  predicate Matches(q: Query, w: WorkspaceRecord) {
    w.userId == q.userId
    && match q.status
       case NotEqual(s) => w.status != s
       case Equal(s) => w.status == s
  }

  function Select(records: seq<WorkspaceRecord>, q: Query): (r: seq<WorkspaceRecord>)
    ensures forall w :: w in r <==> w in records && Matches(q, w)
    ensures multiset(r) <= multiset(records)
    ensures forall w :: multiset(r)[w] == if Matches(q, w) then multiset(records)[w] else 0
  {
    if records == [] then []
    else
      assert records == [records[0]] + records[1..];
      (if Matches(q, records[0]) then [records[0]] else []) + Select(records[1..], q)
  }

  function LastAccessed(w: WorkspaceRecord): int {
    w.lastAccessed
  }

  /** `Workspace.find(query).sort({ lastAccessed: -1 })`: exactly the
      matching records, most recently accessed first. */
  function ListWorkspaces(query: Query, records: seq<WorkspaceRecord>): (r: seq<WorkspaceRecord>)
    ensures multiset(r) == multiset(Select(records, query))
    ensures SortedDesc(r, LastAccessed)
    ensures forall w :: w in r <==> w in records && Matches(query, w)
  {
    SortDescSpec(Select(records, query), LastAccessed);
    SortKeepsMembers(Select(records, query), LastAccessed);
    SortDesc(Select(records, query), LastAccessed)
  }

  /** `getWorkspaces`. */
  method GetWorkspaces(sessionUserId: Option<string>, statusParam: Option<string>, records: seq<WorkspaceRecord>)
    returns (r: Reply<seq<WorkspaceRecord>>)
    ensures r.Unauthorized? <==> !SignedIn(sessionUserId)
    ensures !r.NotFound?
    ensures r.Found? ==>
      && SortedDesc(r.value, LastAccessed)
      && (!(statusParam.Some? && statusParam.value != "") ==>
            forall w :: w in r.value <==> w in records && w.userId == sessionUserId.value && w.status != "deleted")
      && ((statusParam.Some? && statusParam.value != "") ==>
            forall w :: w in r.value <==> w in records && w.userId == sessionUserId.value && w.status == statusParam.value)
    ensures r.Found? && !(statusParam.Some? && statusParam.value != "") ==>
      forall w :: multiset(r.value)[w]
                  == if w.userId == sessionUserId.value && w.status != "deleted" then multiset(records)[w] else 0
    ensures r.Found? && statusParam.Some? && statusParam.value != "" ==>
      forall w :: multiset(r.value)[w]
                  == if w.userId == sessionUserId.value && w.status == statusParam.value then multiset(records)[w] else 0
  {
    if !SignedIn(sessionUserId) {
      return Unauthorized;
    }
    var query := BuildQuery(sessionUserId.value, statusParam);
    r := Found(ListWorkspaces(query, records));
  }

  // ---------------------------------------------------------------------
  // One workspace
  // ---------------------------------------------------------------------

  /** `findOne({ workspaceId, userId })`: the first record matching both. */
  function FindWorkspace(records: seq<WorkspaceRecord>, workspaceId: string, userId: string): (r: Option<nat>)
    ensures r.Some? ==> r.value < |records| && records[r.value].workspaceId == workspaceId
                        && records[r.value].userId == userId
    ensures r.Some? ==> forall i :: 0 <= i < r.value ==> !(records[i].workspaceId == workspaceId && records[i].userId == userId)
    ensures r.None? <==> forall i :: 0 <= i < |records| ==> !(records[i].workspaceId == workspaceId && records[i].userId == userId)
  {
    if records == [] then None
    else if records[0].workspaceId == workspaceId && records[0].userId == userId then Some(0)
    else match FindWorkspace(records[1..], workspaceId, userId)
      case None => None
      case Some(i) => Some(i + 1)
  }

  /** The stored workspaces, whose `lastAccessed` a read refreshes. */
  class WorkspaceStore {
    var records: seq<WorkspaceRecord>

    constructor (records: seq<WorkspaceRecord>)
      ensures this.records == records
    {
      this.records := records;
    }

    /** `getWorkspace`: another user's workspace is as absent as a missing
        one; a hit is saved with `lastAccessed = now` and returned as
        saved. */
    method GetWorkspace(sessionUserId: Option<string>, workspaceId: string, now: int) returns (r: Reply<WorkspaceRecord>)
      modifies this
      ensures r.Unauthorized? <==> !SignedIn(sessionUserId)
      ensures r.NotFound? <==>
        SignedIn(sessionUserId) && FindWorkspace(old(records), workspaceId, sessionUserId.value).None?
      ensures !r.Found? ==> records == old(records)
      ensures r.Found? ==>
        var i := FindWorkspace(old(records), workspaceId, sessionUserId.value).value;
        && records == old(records)[i := old(records)[i].(lastAccessed := now)]
        && r.value == records[i]
        && r.value.workspaceId == workspaceId && r.value.userId == sessionUserId.value
    {
      if !SignedIn(sessionUserId) {
        return Unauthorized;
      }
      var found := FindWorkspace(records, workspaceId, sessionUserId.value);
      if found.None? {
        return NotFound;
      }
      var i := found.value;
      records := records[i := records[i].(lastAccessed := now)];
      r := Found(records[i]);
    }
  }

  // ---------------------------------------------------------------------
  // Recent activity
  // ---------------------------------------------------------------------

  const DefaultLimit: nat := 20

  /** `parseInt(req.query.limit) || 20`, as the database applies it: a
      missing parameter reads as "undefined", which does not parse; `NaN`
      and 0 fall back to 20; a negative limit returns as many records as
      its absolute value. */
  function EffectiveLimit(limitParam: Option<string>): (n: nat)
    ensures n >= 1
    ensures limitParam.None? ==> n == DefaultLimit
    ensures (limitParam.Some? && ParseInt(limitParam.value) in {None, Some(0)}) ==> n == DefaultLimit
    ensures (limitParam.Some? && ParseInt(limitParam.value).Some? && ParseInt(limitParam.value).value != 0) ==>
      n == if ParseInt(limitParam.value).value < 0 then 0 - ParseInt(limitParam.value).value
           else ParseInt(limitParam.value).value
  {
    WordsDoNotParse();
    var parsed := ParseInt(if limitParam.Some? then limitParam.value else "undefined");
    if parsed.None? || parsed.value == 0 then DefaultLimit
    else if parsed.value < 0 then 0 - parsed.value
    else parsed.value
  }

  /** A word without digits does not parse. */
  lemma WordsDoNotParse()
    ensures ParseInt("undefined") == None
    ensures ParseInt("all") == None
  {
    NoDigitFirst("undefined");
    NoDigitFirst("all");
  }

  /** The limit falls back to 20 when it is missing, empty, not a number or
      zero. */
  lemma LimitDefaults()
    ensures EffectiveLimit(None) == 20
    ensures EffectiveLimit(Some("")) == 20
    ensures EffectiveLimit(Some("0")) == 20
    ensures EffectiveLimit(Some("all")) == 20
  {
    WordsDoNotParse();
    ParseDecimal(0);
    assert NatToDecimal(0) == "0";
  }

  /** A positive decimal limit is used as written, and so is the magnitude
      of a negative one. */
  lemma LimitFromDecimal(n: nat)
    requires n >= 1
    ensures EffectiveLimit(Some(NatToDecimal(n))) == n
    ensures EffectiveLimit(Some("-" + NatToDecimal(n))) == n
  {
    ParseDecimal(n);
    ParseNegativeDecimal(n);
  }

  function Timestamp(a: ActivityRecord): int {
    a.timestamp
  }

  function ActivitiesOf(activities: seq<ActivityRecord>, userId: string): (r: seq<ActivityRecord>)
    ensures forall a :: a in r <==> a in activities && a.userId == userId
    ensures multiset(r) <= multiset(activities)
  {
    if activities == [] then []
    else
      assert activities == [activities[0]] + activities[1..];
      (if activities[0].userId == userId then [activities[0]] else []) + ActivitiesOf(activities[1..], userId)
  }

  /** `getActivity`: the user's newest activities, at most the effective
      limit of them. */
  function RecentActivity(sessionUserId: Option<string>, limitParam: Option<string>, activities: seq<ActivityRecord>)
    : (r: Reply<seq<ActivityRecord>>)
    ensures r.Unauthorized? <==> !SignedIn(sessionUserId)
    ensures !r.NotFound?
    ensures r.Found? ==>
      var all := SortDesc(ActivitiesOf(activities, sessionUserId.value), Timestamp);
      && |r.value| <= EffectiveLimit(limitParam)
      && (|r.value| < EffectiveLimit(limitParam) ==> |r.value| == |all|)
      && SortedDesc(r.value, Timestamp)
      && (forall a :: a in r.value ==> a in activities && a.userId == sessionUserId.value)
      && (forall i, j :: 0 <= i < |r.value| <= j < |all| ==> Timestamp(r.value[i]) >= Timestamp(all[j]))
    ensures r.Found? ==> multiset(r.value) <= multiset(ActivitiesOf(activities, sessionUserId.value))
  {
    if !SignedIn(sessionUserId) then Unauthorized
    else
      var all := SortDesc(ActivitiesOf(activities, sessionUserId.value), Timestamp);
      SortDescSpec(ActivitiesOf(activities, sessionUserId.value), Timestamp);
      TakeKeepsNewest(all, Timestamp, EffectiveLimit(limitParam));
      SortKeepsMembers(ActivitiesOf(activities, sessionUserId.value), Timestamp);
      Found(Take(all, EffectiveLimit(limitParam)))
  }
}
