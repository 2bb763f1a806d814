/** The tracker-API caching layer: a write-once permanent tier of issue
    fields, a session tier of issue lists with a five-minute freshness
    window, and a rolling one-hour count of API calls (linear_cache.py).
    The clock is the parameter `now` (seconds, as `time.time()` returns);
    ISO time stamps are opaque `Stamp` parameters. */
module Caching {
  import opened Wrappers
  import opened Issues

  /** An ISO-8601 time stamp; it is only stored, never compared. */
  type Stamp = string

  /** Calls older than this many seconds leave the rate window. */
  const RateWindow: real := 3600.0
  /** More calls than this in the window raise the warning (80% of the limit). */
  const WarningThreshold: nat := 1200
  /** The tracker's advisory hourly budget. */
  const RateLimit: nat := 1500
  /** A session entry is fresh while it is younger than this many seconds. */
  const SessionTtl: real := 300.0

  /** An entry of the permanent tier (`permanent_cache['issues'][id]`). */
  datatype CachedIssue = CachedIssue(
    id: string,
    title: Option<string>,
    description: Option<string>,
    priority: Option<int>,
    cachedAt: Stamp)

  /** An entry of the session tier: a whole issue list and when it was stored. */
  datatype SessionEntry = SessionEntry(issues: seq<Issue>, timestamp: real)

  /** What `get_api_stats` reports. */
  datatype ApiStats = ApiStats(
    totalCallsSession: nat,
    callsLastHour: nat,
    rateLimit: nat,
    percentageUsed: real,
    cachedIssues: nat)

  /** The session-tier key of a project's issue list. */
  function SessionKey(projectId: string): (k: string)
    ensures |k| == |projectId| + 7 && k[7..] == projectId
  {
    "issues_" + projectId
  }

  /** Different projects never share a session entry. */
  lemma SessionKeyInjective(p: string, q: string)
    ensures SessionKey(p) == SessionKey(q) <==> p == q
  {
    if SessionKey(p) == SessionKey(q) {
      assert p == SessionKey(p)[7..] == SessionKey(q)[7..] == q;
    }
  }

  // ---------------------------------------------------------------------
  // The rate window

  predicate NonDecreasing(ts: seq<real>) {
    forall i, j :: 0 <= i < j < |ts| ==> ts[i] <= ts[j]
  }

  /** The time stamps later than `cutoff`, in their original order
      (`[t for t in timestamps if t > cutoff]`). */
  function Recent(ts: seq<real>, cutoff: real): (r: seq<real>)
    ensures |r| <= |ts|
    ensures forall t :: t in r <==> t in ts && cutoff < t
  {
    if ts == [] then []
    else if cutoff < ts[|ts| - 1] then Recent(ts[..|ts| - 1], cutoff) + [ts[|ts| - 1]]
    else Recent(ts[..|ts| - 1], cutoff)
  }

  /** Pruning works stamp by stamp: the survivors of `a + b` are those of
      `a` followed by those of `b`, so order and repeated stamps are kept. */
  lemma {:induction false} RecentAppend(a: seq<real>, b: seq<real>, cutoff: real)
    ensures Recent(a + b, cutoff) == Recent(a, cutoff) + Recent(b, cutoff)
  {
    if b == [] {
      assert a + b == a;
    } else {
      var n := |b| - 1;
      assert (a + b)[..|a + b| - 1] == a + b[..n];
      RecentAppend(a, b[..n], cutoff);
    }
  }

  /** Pruning keeps a list whose stamps are all inside the window as it is. */
  lemma {:induction false} RecentKeepsAll(ts: seq<real>, cutoff: real)
    requires forall i :: 0 <= i < |ts| ==> cutoff < ts[i]
    ensures Recent(ts, cutoff) == ts
  {
    if ts != [] {
      RecentKeepsAll(ts[..|ts| - 1], cutoff);
      assert ts[..|ts| - 1] + [ts[|ts| - 1]] == ts;
    }
  }

  /** On stamps in time order, pruning only trims a prefix: what is left
      is the suffix of the same length. */
  lemma {:induction false} RecentOfSortedIsSuffix(ts: seq<real>, cutoff: real)
    requires NonDecreasing(ts)
    ensures Recent(ts, cutoff) == ts[|ts| - |Recent(ts, cutoff)|..]
  {
    if ts != [] {
      var n := |ts| - 1;
      var init := ts[..n];
      NonDecreasingPrefix(ts, n);
      if cutoff < ts[n] {
        RecentOfSortedIsSuffix(init, cutoff);
        var m := |Recent(init, cutoff)|;
        assert init[n - m..] + [ts[n]] == ts[n - m..];
      } else {
        RecentDropsAll(ts, cutoff);
      }
    }
  }

  lemma NonDecreasingPrefix(ts: seq<real>, n: nat)
    requires NonDecreasing(ts) && n <= |ts|
    ensures NonDecreasing(ts[..n])
  {
  }

  /** When the newest of stamps in time order is outside the window, all are. */
  lemma {:induction false} RecentDropsAll(ts: seq<real>, cutoff: real)
    requires NonDecreasing(ts) && ts != [] && ts[|ts| - 1] <= cutoff
    ensures Recent(ts, cutoff) == []
  {
    var n := |ts| - 1;
    if n > 0 {
      NonDecreasingPrefix(ts, n);
      assert ts[..n][n - 1] <= ts[n];
      RecentDropsAll(ts[..n], cutoff);
    }
  }

  /** Recording a call at `now` always keeps that call, as the newest stamp. */
  lemma NewCallIsKept(ts: seq<real>, now: real)
    ensures Recent(ts + [now], now - RateWindow) == Recent(ts, now - RateWindow) + [now]
  {
    assert (ts + [now])[..|ts|] == ts;
  }

  /** The share of the hourly budget that `calls` use, in percent. */
  function UsedPercentage(calls: nat): (p: real)
    ensures 0.0 <= p
    ensures p <= 100.0 <==> calls <= RateLimit
  {
    calls as real / RateLimit as real * 100.0
  }

  /** The warning of `track_api_call` (more than 1200 calls) fires exactly
      when `get_api_stats` reports more than 80% of the budget used. */
  lemma WarningMeansEightyPercent(calls: nat)
    ensures calls > WarningThreshold <==> UsedPercentage(calls) > 80.0
  {
  }

  // ---------------------------------------------------------------------
  // The permanent tier, as a function of the map

  /** `issue.get('id')` is truthy: present and non-empty. */
  predicate HasId(i: Issue) {
    i.id.Some? && i.id.value != ""
  }

  /** The fields `cache_issue` keeps of an issue: its id, title, description
      and priority, plus when it was cached. */
  function EntryFor(issueId: string, data: Issue, stamp: Stamp): (e: CachedIssue)
    ensures e.id == issueId
    ensures e.title == data.title && e.description == data.description && e.priority == data.priority
  {
    CachedIssue(issueId, data.title, data.description, data.priority, stamp)
  }

  /** The ids of the issues that `cache_session_issues` passes on. */
  function IdsOf(issues: seq<Issue>): set<string> {
    set i | i in issues && HasId(i) :: i.id.value
  }

  /** One step of the loop in `cache_session_issues`: write-once insertion
      of an issue that has an id. */
  function RememberOne(perm: map<string, CachedIssue>, i: Issue, stamp: Stamp): map<string, CachedIssue> {
    if HasId(i) && i.id.value !in perm then perm[i.id.value := EntryFor(i.id.value, i, stamp)] else perm
  }

  /** The permanent tier after `cache_session_issues` has walked `issues`. */
  function RememberAll(perm: map<string, CachedIssue>, issues: seq<Issue>, stamp: Stamp): (r: map<string, CachedIssue>)
    ensures forall k :: k in perm ==> k in r && r[k] == perm[k]
    ensures r.Keys == perm.Keys + IdsOf(issues)
    ensures forall k :: k in r && k !in perm ==> r[k].id == k
  {
    if issues == [] then perm
    else
      var init := issues[..|issues| - 1];
      var last := issues[|issues| - 1];
      assert issues == init + [last];
      assert IdsOf(issues) == IdsOf(init) + (if HasId(last) then {last.id.value} else {});
      RememberOne(RememberAll(perm, init, stamp), last, stamp)
  }

  /** One more issue of the list is one more write-once insertion. */
  lemma RememberAllStep(perm: map<string, CachedIssue>, issues: seq<Issue>, stamp: Stamp, i: nat)
    requires i < |issues|
    ensures RememberAll(perm, issues[..i + 1], stamp) == RememberOne(RememberAll(perm, issues[..i], stamp), issues[i], stamp)
  {
    assert issues[..i + 1][..i] == issues[..i];
  }

  /** A key that was new to the permanent tier holds the fields of the
      FIRST issue in the list with that id: later duplicates do not
      overwrite it. */
  lemma {:induction false} RememberAllFirstSeen(perm: map<string, CachedIssue>, issues: seq<Issue>, stamp: Stamp, j: nat)
    requires j < |issues| && HasId(issues[j])
    requires issues[j].id.value !in perm
    requires forall i :: 0 <= i < j ==> issues[i].id != issues[j].id
    ensures RememberAll(perm, issues, stamp)[issues[j].id.value] == EntryFor(issues[j].id.value, issues[j], stamp)
  {
    var k := issues[j].id.value;
    var init := issues[..|issues| - 1];
    var last := issues[|issues| - 1];
    if j == |issues| - 1 {
      forall i | i in init && HasId(i)
        ensures i.id.value != k
      {
        var n :| 0 <= n < |init| && init[n] == i;
        assert issues[n] == i;
      }
      assert k !in IdsOf(init);
    } else {
      RememberAllFirstSeen(perm, init, stamp, j);
    }
  }

  /** A fresh session entry is younger than five minutes; one exactly 300 s
      old is already stale. */
  predicate IsFresh(e: SessionEntry, now: real) {
    now - e.timestamp < SessionTtl
  }

  /** `list_issues` with a status keeps the cached issues in that state;
      a missing or empty status keeps them all. */
  function ByStatus(issues: seq<Issue>, status: Option<string>): (r: seq<Issue>)
    ensures status.Some? && status.value != "" ==> forall i :: i in r <==> i in issues && StateIs(i, status.value)
    ensures status.Some? && status.value != "" ==> r == WithState(issues, status.value)
    ensures !(status.Some? && status.value != "") ==> r == issues
  {
    if status.Some? && status.value != "" then WithState(issues, status.value) else issues
  }

  // ---------------------------------------------------------------------
  // The cache object

  class LinearCache {
    /** `permanent_cache['issues']`: issue id to its first-seen fields. */
    var permanent: map<string, CachedIssue>
    /** `session_cache`: `"issues_" + project_id` to the list last stored. */
    var sessionCache: map<string, SessionEntry>
    /** Calls counted since this object was made. */
    var apiCallCount: nat
    /** Stamps of the calls of the last hour, oldest first. */
    var apiCallTimestamps: seq<real>
    /** The permanent tier as `save_cache` last wrote it; None before the first save. */
    ghost var lastSaved: Option<map<string, CachedIssue>>

    /** Starts from the permanent tier read from disk, or from an empty one
        when there is no cache file or it cannot be read. */
    constructor (loaded: Option<map<string, CachedIssue>>)
      ensures permanent == loaded.GetOr(map[])
      ensures sessionCache == map[] && apiCallCount == 0 && apiCallTimestamps == []
      ensures lastSaved == None
    {
      permanent := loaded.GetOr(map[]);
      sessionCache := map[];
      apiCallCount := 0;
      apiCallTimestamps := [];
      lastSaved := None;
    }

    /** This call counted one API call at `now` and changed nothing else. */
    twostate predicate CountedOneCall(now: real)
      reads this
    {
      && apiCallCount == old(apiCallCount) + 1
      && apiCallTimestamps == Recent(old(apiCallTimestamps) + [now], now - RateWindow)
      && permanent == old(permanent)
      && sessionCache == old(sessionCache)
      && lastSaved == old(lastSaved)
    }

    /** Counts one call at `now`, drops the stamps an hour old or older, and
        returns how many remain together with the over-80% warning. */
    method TrackApiCall(now: real) returns (inWindow: nat, warning: bool)
      modifies this
      ensures CountedOneCall(now)
      ensures inWindow == |apiCallTimestamps| && 1 <= inWindow
      ensures warning <==> inWindow > WarningThreshold
    {
      apiCallCount := apiCallCount + 1;
      apiCallTimestamps := apiCallTimestamps + [now];
      var oneHourAgo := now - RateWindow;
      var kept: seq<real> := [];
      var i := 0;
      while i < |apiCallTimestamps|
        invariant 0 <= i <= |apiCallTimestamps|
        invariant kept == Recent(apiCallTimestamps[..i], oneHourAgo)
      {
        assert apiCallTimestamps[..i + 1][..i] == apiCallTimestamps[..i];
        if apiCallTimestamps[i] > oneHourAgo {
          kept := kept + [apiCallTimestamps[i]];
        }
        i := i + 1;
      }
      assert apiCallTimestamps[..i] == apiCallTimestamps;
      assert now in kept;
      apiCallTimestamps := kept;
      inWindow := |apiCallTimestamps|;
      warning := inWindow > WarningThreshold;
    }

    /** The permanent entry of `issueId`, if any. */
    function GetCachedIssue(issueId: string): (r: Option<CachedIssue>)
      reads this
      ensures r.Some? <==> issueId in permanent
      ensures r.Some? ==> r.value == permanent[issueId] && r.value in permanent.Values
    {
      if issueId in permanent then Some(permanent[issueId]) else None
    }

    /** Write-once insertion: a present id leaves the tier (and the file)
        alone; a new id gets the entry and the tier is saved. */
    method CacheIssue(issueId: string, issueData: Issue, stamp: Stamp)
      modifies this
      ensures old(issueId in permanent) ==> permanent == old(permanent) && lastSaved == old(lastSaved)
      ensures old(issueId !in permanent) ==>
                permanent == old(permanent)[issueId := EntryFor(issueId, issueData, stamp)]
                && lastSaved == Some(permanent)
      ensures sessionCache == old(sessionCache)
      ensures apiCallCount == old(apiCallCount) && apiCallTimestamps == old(apiCallTimestamps)
    {
      if issueId !in permanent {
        permanent := permanent[issueId := EntryFor(issueId, issueData, stamp)];
        SaveCache();
      }
    }

    /** `save_cache`: the file now holds the permanent tier. A failed
        write, which the source only logs, is not modelled. */
    method SaveCache()
      modifies this`lastSaved
      ensures lastSaved == Some(permanent)
    {
      lastSaved := Some(permanent);
    }

    /** The project's cached issue list while it is fresh; reading it changes
        nothing (no copy into the permanent tier). */
    function GetSessionIssues(projectId: string, now: real): (r: Option<seq<Issue>>)
      reads this
      ensures r.Some? <==> SessionKey(projectId) in sessionCache && IsFresh(sessionCache[SessionKey(projectId)], now)
      ensures r.Some? ==> r.value == sessionCache[SessionKey(projectId)].issues
    {
      var key := SessionKey(projectId);
      if key in sessionCache && now - sessionCache[key].timestamp < SessionTtl
      then Some(sessionCache[key].issues)
      else None
    }

    /** Stores the list for the project, replacing any earlier one, then
        copies every issue that has an id into the permanent tier. */
    method CacheSessionIssues(projectId: string, issues: seq<Issue>, now: real, stamp: Stamp)
      modifies this
      ensures sessionCache == old(sessionCache)[SessionKey(projectId) := SessionEntry(issues, now)]
      ensures permanent == RememberAll(old(permanent), issues, stamp)
      ensures lastSaved == if permanent == old(permanent) then old(lastSaved) else Some(permanent)
      ensures apiCallCount == old(apiCallCount) && apiCallTimestamps == old(apiCallTimestamps)
    {
      sessionCache := sessionCache[SessionKey(projectId) := SessionEntry(issues, now)];
      var i := 0;
      while i < |issues|
        invariant 0 <= i <= |issues|
        invariant permanent == RememberAll(old(permanent), issues[..i], stamp)
        invariant lastSaved == if permanent == old(permanent) then old(lastSaved) else Some(permanent)
        invariant sessionCache == old(sessionCache)[SessionKey(projectId) := SessionEntry(issues, now)]
        invariant apiCallCount == old(apiCallCount) && apiCallTimestamps == old(apiCallTimestamps)
      {
        RememberAllStep(old(permanent), issues, stamp, i);
        var issue := issues[i];
        if issue.id.Some? && issue.id.value != "" {
          ghost var before := permanent;
          CacheIssue(issue.id.value, issue, stamp);
          if issue.id.value !in before {
            assert issue.id.value in permanent && issue.id.value !in old(permanent);
          }
        }
        i := i + 1;
      }
      assert issues[..i] == issues;
    }

    /** Drops the project's session entry, if there is one; nothing else. */
    method InvalidateSessionCache(projectId: string)
      modifies this
      ensures sessionCache == old(sessionCache) - {SessionKey(projectId)}
      ensures permanent == old(permanent) && lastSaved == old(lastSaved)
      ensures apiCallCount == old(apiCallCount) && apiCallTimestamps == old(apiCallTimestamps)
    {
      var key := SessionKey(projectId);
      if key in sessionCache {
        sessionCache := sessionCache - {key};
      }
    }

    /** Usage figures; reading them changes nothing. */
    function GetApiStats(): (s: ApiStats)
      reads this
      ensures s.totalCallsSession == apiCallCount
      ensures s.callsLastHour == |apiCallTimestamps| && s.rateLimit == RateLimit
      ensures s.percentageUsed == UsedPercentage(s.callsLastHour)
      ensures s.cachedIssues == |permanent|
    {
      var callsLastHour := |apiCallTimestamps|;
      ApiStats(apiCallCount, callsLastHour, RateLimit, UsedPercentage(callsLastHour), |permanent|)
    }
  }

  /** The tracker client: each operation answers from the cache or counts
      one API call. The remote fetches themselves are placeholders in the
      source, so a miss returns an empty answer. */
  class CachedLinearClient {
    const cache: LinearCache
    const prefix: string

    constructor (cache: LinearCache, linearToolsPrefix: string := "mcp__linear__")
      ensures this.cache == cache && prefix == linearToolsPrefix
    {
      this.cache := cache;
      prefix := linearToolsPrefix;
    }

    /** A non-empty fresh session list answers without a call, filtered by
        `status`; anything else (no entry, stale, or an empty list) counts
        one call and returns the empty list. */
    method ListIssues(projectId: string, status: Option<string>, now: real) returns (r: seq<Issue>)
      modifies cache
      ensures var hit := old(cache.GetSessionIssues(projectId, now));
              if hit.Some? && hit.value != [] then r == ByStatus(hit.value, status) && unchanged(cache)
              else r == [] && cache.CountedOneCall(now)
    {
      var cached := cache.GetSessionIssues(projectId, now);
      if cached.Some? && cached.value != [] {
        if status.Some? && status.value != "" {
          return WithState(cached.value, status.value);
        }
        return cached.value;
      }
      var _, _ := cache.TrackApiCall(now);
      return [];
    }

    /** A permanent hit answers without a call; a miss counts one call and
        returns None. */
    method GetIssue(issueId: string, now: real) returns (r: Option<CachedIssue>)
      modifies cache
      ensures old(issueId in cache.permanent) ==> r == Some(old(cache.permanent[issueId])) && unchanged(cache)
      ensures old(issueId !in cache.permanent) ==> r == None && cache.CountedOneCall(now)
    {
      var cached := cache.GetCachedIssue(issueId);
      if cached.Some? {
        return cached;
      }
      var _, _ := cache.TrackApiCall(now);
      return None;
    }

    /** As written: counts one call and leaves the session tier as it was,
        although its log line says the list was invalidated. */
    method UpdateIssue(issueId: string, now: real)
      modifies cache
      ensures cache.CountedOneCall(now)
    {
      var _, _ := cache.TrackApiCall(now);
    }

    /** Counts one call, then drops the project's session list, so the next
        `ListIssues` cannot serve the pre-update state. */
    method UpdateIssueInProject(projectId: string, issueId: string, now: real)
      modifies cache
      ensures cache.apiCallCount == old(cache.apiCallCount) + 1
      ensures cache.apiCallTimestamps == Recent(old(cache.apiCallTimestamps) + [now], now - RateWindow)
      ensures cache.sessionCache == old(cache.sessionCache) - {SessionKey(projectId)}
      ensures cache.permanent == old(cache.permanent) && cache.lastSaved == old(cache.lastSaved)
    {
      var _, _ := cache.TrackApiCall(now);
      cache.InvalidateSessionCache(projectId);
    }

    /** Always counts one call; nothing is cached. */
    method CreateComment(issueId: string, body: string, now: real)
      modifies cache
      ensures cache.CountedOneCall(now)
    {
      var _, _ := cache.TrackApiCall(now);
    }
  }
}
