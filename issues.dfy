/** The work-item records that both the cache and the progress engine read.
    The tracker hands them over as JSON dictionaries whose keys may be
    missing; each optional key is an `Option` here. */
module Issues {
  import opened Wrappers

  /** One tracker issue. `state` is the state's name, i.e. the value of
      `issue.get('state', {}).get('name')`; `None` when the issue has no state. */
  datatype Issue = Issue(
    id: Option<string>,
    title: Option<string>,
    description: Option<string>,
    priority: Option<int>,
    state: Option<string>)

  predicate StateIs(i: Issue, name: string) {
    i.state == Some(name)
  }

  /** The issues whose state name is `name`, in their original order
      (`[i for i in issues if i.get('state', {}).get('name') == name]`). */
  function WithState(issues: seq<Issue>, name: string): (r: seq<Issue>)
    ensures |r| <= |issues|
    ensures forall i :: i in r ==> StateIs(i, name)
    ensures forall i :: i in issues && StateIs(i, name) ==> i in r
    ensures forall i :: i in r ==> i in issues
  {
    if issues == [] then []
    else if StateIs(issues[0], name) then [issues[0]] + WithState(issues[1..], name)
    else WithState(issues[1..], name)
  }

  /** Filtering works issue by issue: the matches in `a + b` are those of
      `a` followed by those of `b`, so order and duplicates are kept. */
  lemma {:induction false} WithStateAppend(a: seq<Issue>, b: seq<Issue>, name: string)
    ensures WithState(a + b, name) == WithState(a, name) + WithState(b, name)
  {
    if a == [] {
      assert a + b == b;
    } else {
      assert (a + b)[0] == a[0];
      assert (a + b)[1..] == a[1..] + b;
      WithStateAppend(a[1..], b, name);
    }
  }

  /** Replacing one issue changes the count of a state by at most the two
      issues involved: the old one leaves, the new one enters. */
  lemma {:induction false} WithStateUpdate(s: seq<Issue>, k: nat, x: Issue, name: string)
    requires k < |s|
    ensures |WithState(s[k := x], name)|
         == |WithState(s, name)| - (if StateIs(s[k], name) then 1 else 0) + (if StateIs(x, name) then 1 else 0)
  {
    if k == 0 {
      assert s[k := x] == [x] + s[1..];
      assert s[k := x][1..] == s[1..];
    } else {
      assert s[k := x][0] == s[0];
      assert s[k := x][1..] == s[1..][k - 1 := x];
      WithStateUpdate(s[1..], k - 1, x, name);
    }
  }
}
