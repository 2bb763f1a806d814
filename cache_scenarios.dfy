/** Client code of the cache: each method builds a fresh cache, drives it
    through a sequence of operations and states what the caller observes,
    using nothing but the operations' contracts. */
module CacheScenarios {
  import opened Wrappers
  import opened Issues
  import opened Caching

  /** Write-once: caching X with data A and then with data B still answers A. */
  method WriteOnce(issueId: string, a: Issue, b: Issue, first: Stamp, second: Stamp)
    returns (got: Option<CachedIssue>)
    ensures got == Some(EntryFor(issueId, a, first))
    ensures got.value.title == a.title && got.value.description == a.description
  {
    var c := new LinearCache(None);
    c.CacheIssue(issueId, a, first);
    c.CacheIssue(issueId, b, second);
    got := c.GetCachedIssue(issueId);
  }

  /** A stored list is served while fresh and is gone from the 300th second on. */
  method SessionFreshness(projectId: string, issues: seq<Issue>, stored: real, soon: real, later: real, stamp: Stamp)
    returns (early: Option<seq<Issue>>, late: Option<seq<Issue>>)
    requires soon - stored < SessionTtl
    requires later - stored >= SessionTtl
    ensures early == Some(issues)
    ensures late == None
  {
    var c := new LinearCache(None);
    c.CacheSessionIssues(projectId, issues, stored, stamp);
    early := c.GetSessionIssues(projectId, soon);
    late := c.GetSessionIssues(projectId, later);
  }

  /** Invalidating one project forgets its list at any time, and leaves
      another project's list in place. */
  method Invalidation(p: string, q: string, forP: seq<Issue>, forQ: seq<Issue>, stored: real, now: real, stamp: Stamp)
    returns (gotP: Option<seq<Issue>>, gotQ: Option<seq<Issue>>)
    requires p != q
    requires now - stored < SessionTtl
    ensures gotP == None
    ensures gotQ == Some(forQ)
  {
    var c := new LinearCache(None);
    c.CacheSessionIssues(p, forP, stored, stamp);
    c.CacheSessionIssues(q, forQ, stored, stamp);
    SessionKeyInjective(p, q);
    c.InvalidateSessionCache(p);
    gotP := c.GetSessionIssues(p, now);
    gotQ := c.GetSessionIssues(q, now);
  }

  /** Storing a list fills the permanent tier with every issue that has an
      id, which `get_issue` then serves without a call. */
  method ListFillsPermanentTier(projectId: string, issues: seq<Issue>, k: nat, now: real, stamp: Stamp)
    returns (got: Option<CachedIssue>, calls: nat)
    requires k < |issues| && HasId(issues[k])
    ensures got.Some? && got.value.id == issues[k].id.value
    ensures calls == 0
  {
    var c := new LinearCache(None);
    c.CacheSessionIssues(projectId, issues, now, stamp);
    assert issues[k].id.value in IdsOf(issues);
    var client := new CachedLinearClient(c, "mcp__linear__");
    got := client.GetIssue(issues[k].id.value, now);
    calls := c.apiCallCount;
  }

  /** The client's list: a miss costs one call and gives [], a fresh
      non-empty list costs nothing and is filtered by state. */
  method ListThroughClient(projectId: string, issues: seq<Issue>, status: string, now: real, stamp: Stamp)
    returns (missed: seq<Issue>, hit: seq<Issue>, calls: nat)
    requires issues != [] && status != ""
    ensures missed == []
    ensures hit == WithState(issues, status)
    ensures calls == 1
  {
    var c := new LinearCache(None);
    var client := new CachedLinearClient(c, "mcp__linear__");
    missed := client.ListIssues(projectId, Some(status), now);
    c.CacheSessionIssues(projectId, issues, now, stamp);
    hit := client.ListIssues(projectId, Some(status), now);
    calls := c.apiCallCount;
  }

  /** An empty cached list is a miss for the client: it costs a call. */
  method EmptyListIsAMiss(projectId: string, now: real, stamp: Stamp)
    returns (fromCache: Option<seq<Issue>>, listed: seq<Issue>, calls: nat)
    ensures fromCache == Some([])
    ensures listed == [] && calls == 1
  {
    var c := new LinearCache(None);
    c.CacheSessionIssues(projectId, [], now, stamp);
    fromCache := c.GetSessionIssues(projectId, now);
    var client := new CachedLinearClient(c, "mcp__linear__");
    listed := client.ListIssues(projectId, None, now);
    calls := c.apiCallCount;
  }

  /** The update as written leaves a stale list in the session tier. */
  method StaleAfterUpdate(projectId: string, issues: seq<Issue>, issueId: string, now: real, stamp: Stamp)
    returns (afterUpdate: Option<seq<Issue>>)
    requires issues != []
    ensures afterUpdate == Some(issues)
  {
    var c := new LinearCache(None);
    c.CacheSessionIssues(projectId, issues, now, stamp);
    var client := new CachedLinearClient(c, "mcp__linear__");
    client.UpdateIssue(issueId, now);
    afterUpdate := c.GetSessionIssues(projectId, now);
  }

  /** The update that invalidates leaves no list to serve. */
  method FreshAfterUpdate(projectId: string, issues: seq<Issue>, issueId: string, now: real, stamp: Stamp)
    returns (afterUpdate: Option<seq<Issue>>)
    ensures afterUpdate == None
  {
    var c := new LinearCache(None);
    c.CacheSessionIssues(projectId, issues, now, stamp);
    var client := new CachedLinearClient(c, "mcp__linear__");
    client.UpdateIssueInProject(projectId, issueId, now);
    afterUpdate := c.GetSessionIssues(projectId, now);
  }

  /** Calls made in time order within one hour all stay in the window; more
      than 1200 of them raise the warning. */
  method RateWarning(times: seq<real>) returns (inWindow: nat, warning: bool)
    requires |times| > WarningThreshold
    requires NonDecreasing(times)
    requires times[|times| - 1] - times[0] < RateWindow
    ensures inWindow == |times|
    ensures warning
  {
    var c := new LinearCache(None);
    inWindow, warning := 0, false;
    var i := 0;
    while i < |times|
      invariant 0 <= i <= |times|
      invariant c.apiCallTimestamps == times[..i]
      invariant inWindow == i && (warning <==> i > WarningThreshold)
    {
      var now := times[i];
      WindowKeepsEarlierCalls(times, i);
      inWindow, warning := c.TrackApiCall(now);
      i := i + 1;
    }
  }

  /** The i-th call of a run that fits in one hour keeps all earlier ones. */
  lemma WindowKeepsEarlierCalls(times: seq<real>, i: nat)
    requires i < |times|
    requires NonDecreasing(times)
    requires times[|times| - 1] - times[0] < RateWindow
    ensures Recent(times[..i] + [times[i]], times[i] - RateWindow) == times[..i + 1]
  {
    var now := times[i];
    NewCallIsKept(times[..i], now);
    forall j | 0 <= j < i
      ensures now - RateWindow < times[..i][j]
    {
      assert times[0] <= times[j] && now <= times[|times| - 1];
    }
    RecentKeepsAll(times[..i], now - RateWindow);
    assert times[..i] + [now] == times[..i + 1];
  }

  /** A call exactly an hour old is pruned. */
  method HourOldCallIsPruned(first: real) returns (kept: seq<real>)
    ensures kept == [first + RateWindow]
  {
    var c := new LinearCache(None);
    var _, _ := c.TrackApiCall(first);
    assert c.apiCallTimestamps == [first] by {
      NewCallIsKept([], first);
    }
    var _, _ := c.TrackApiCall(first + RateWindow);
    NewCallIsKept([first], first + RateWindow);
    assert Recent([first], first) == [] by {
      assert [first][..0] == [];
    }
    kept := c.apiCallTimestamps;
  }
}
