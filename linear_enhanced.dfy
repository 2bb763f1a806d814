/** Progress, milestone and health derivation from a snapshot of tracker
    issues, the next-session priority list, and the project record with
    its session histories (linear_enhanced.py, class
    EnhancedLinearIntegration). Arithmetic is on exact `real`s; the display
    rounding of the source is not part of this model. */
module Enhanced {
  import opened Wrappers
  import opened Issues
  import Decimal

  /** An ISO-8601 time stamp; only stored, never compared. */
  type Stamp = string

  // ---------------------------------------------------------------------
  // Milestones

  datatype MilestoneKey = Setup | Core | Features | Polish | Complete

  datatype Milestone = Milestone(key: MilestoneKey, name: string, description: string, target: int)

  /** The project phases in their fixed order, with their target percentages. */
  const Milestones: seq<Milestone> := [
    Milestone(Setup, "Project Setup", "Initial project scaffolding and infrastructure", 10),
    Milestone(Core, "Core Features", "Essential functionality and critical features", 40),
    Milestone(Features, "Feature Implementation", "Secondary features and enhancements", 75),
    Milestone(Polish, "Polish & Refinement", "UI polish, performance optimization, bug fixes", 95),
    Milestone(Complete, "Project Complete", "All features implemented and tested", 100)
  ]

  /** The position of a phase in `Milestones`. */
  function Rank(k: MilestoneKey): (n: nat)
    ensures n < |Milestones| && Milestones[n].key == k
  {
    match k
    case Setup => 0
    case Core => 1
    case Features => 2
    case Polish => 3
    case Complete => 4
  }

  /** The index of the first entry whose target is strictly above `pct`,
      or `|table|` when there is none. */
  function FirstAbove(table: seq<Milestone>, pct: real): (i: nat)
    ensures i <= |table|
    ensures forall j :: 0 <= j < i ==> table[j].target as real <= pct
    ensures i < |table| ==> pct < table[i].target as real
  {
    if table == [] then 0
    else if pct < table[0].target as real then 0
    else 1 + FirstAbove(table[1..], pct)
  }

  /** The first phase whose target exceeds the percentage; `complete` when
      none does. */
  function DetermineCurrentMilestone(pct: real): (m: Milestone)
    ensures m == Milestones[Rank(m.key)]
    ensures forall j :: 0 <= j < Rank(m.key) ==> Milestones[j].target as real <= pct
    ensures pct < m.target as real || m.key == Complete
  {
    var i := FirstAbove(Milestones, pct);
    if i < |Milestones| then Milestones[i]
    else
      var done := Milestones[4];
      Milestone(Complete, done.name, done.description, 100)
  }

  /** The phase never moves back as progress grows. */
  lemma MilestoneMonotone(p: real, q: real)
    requires p <= q
    ensures Rank(DetermineCurrentMilestone(p).key) <= Rank(DetermineCurrentMilestone(q).key)
  {
    var mq := DetermineCurrentMilestone(q);
    if mq.key != Complete {
      var mp := DetermineCurrentMilestone(p);
      var i := Rank(mq.key);
      assert p < Milestones[i].target as real;
    }
  }

  /** A value equal to a target belongs to the next phase. */
  lemma MilestoneAtTargets()
    ensures DetermineCurrentMilestone(10.0).key == Core
    ensures DetermineCurrentMilestone(40.0).key == Features
  {
    assert Milestones[0].target as real <= 10.0;
    assert Milestones[1].target as real <= 40.0;
  }

  /** Below 10 the phase is `setup`; from 95 on it is `complete`, and only
      then is the target 100. */
  lemma MilestoneRanges(pct: real)
    ensures pct < 10.0 ==> DetermineCurrentMilestone(pct).key == Setup
    ensures 95.0 <= pct ==> DetermineCurrentMilestone(pct).key == Complete
    ensures DetermineCurrentMilestone(pct).target == 100 <==> 95.0 <= pct
  {
    assert Milestones[0].target == 10 && Milestones[3].target == 95;
  }

  // ---------------------------------------------------------------------
  // Health

  datatype Health = OnTrack | AtRisk | OffTrack

  /** The wire names of the three states. */
  function HealthName(h: Health): string {
    match h
    case OnTrack => "on_track"
    case AtRisk => "at_risk"
    case OffTrack => "off_track"
  }

  /** Ordered rules, first match wins. */
  function DetermineHealthStatus(pct: real, velocity: real, errorsCount: int): (h: Health)
    ensures h == OnTrack <==> velocity > 0.8 && errorsCount < 5 && pct > 20.0
    ensures h == AtRisk <==> !(velocity > 0.8 && errorsCount < 5 && pct > 20.0) && velocity > 0.3 && errorsCount < 10
  {
    if velocity > 0.8 && errorsCount < 5 && pct > 20.0 then OnTrack
    else if velocity > 0.3 && errorsCount < 10 then AtRisk
    else OffTrack
  }

  function HealthScore(h: Health): nat {
    match h
    case OffTrack => 0
    case AtRisk => 1
    case OnTrack => 2
  }

  /** More progress, more velocity and fewer errors never give a worse state. */
  lemma HealthMonotone(p1: real, v1: real, e1: int, p2: real, v2: real, e2: int)
    requires p1 <= p2 && v1 <= v2 && e2 <= e1
    ensures HealthScore(DetermineHealthStatus(p1, v1, e1)) <= HealthScore(DetermineHealthStatus(p2, v2, e2))
  {
  }

  /** The three reference cases. */
  lemma HealthExamples()
    ensures DetermineHealthStatus(50.0, 1.0, 0) == OnTrack
    ensures DetermineHealthStatus(50.0, 0.5, 3) == AtRisk
    ensures DetermineHealthStatus(50.0, 0.1, 20) == OffTrack
  {
  }

  // ---------------------------------------------------------------------
  // Progress

  datatype ProgressReport = ProgressReport(
    totalIssues: nat,
    completed: nat,
    inProgress: nat,
    todo: nat,
    progressPercentage: real,
    velocity: real,
    estimatedCompletion: string)

  const DoneState := "Done"
  const InProgressState := "In Progress"
  const TodoState := "Todo"

  /** Issues in neither recognised working state: no state, `Todo`, or any
      other name. */
  predicate NotStarted(i: Issue) {
    !StateIs(i, DoneState) && !StateIs(i, InProgressState)
  }

  function CountNotStarted(issues: seq<Issue>): nat {
    if issues == [] then 0
    else (if NotStarted(issues[0]) then 1 else 0) + CountNotStarted(issues[1..])
  }

  /** Every issue falls in exactly one of done, in progress and not started. */
  lemma {:induction false} CountsPartition(issues: seq<Issue>)
    ensures |WithState(issues, DoneState)| + |WithState(issues, InProgressState)| + CountNotStarted(issues) == |issues|
  {
    if issues != [] {
      CountsPartition(issues[1..]);
    }
  }

  /** `(completed + 0.25 * in_progress) / total * 100`, or 0 without issues. */
  function ProgressPercentage(completed: nat, inProgress: nat, total: nat): (r: real)
    ensures total == 0 ==> r == 0.0
    ensures total > 0 ==> r * total as real == 100.0 * (completed as real + 0.25 * inProgress as real)
  {
    if total > 0 then (completed as real + 0.25 * inProgress as real) / total as real * 100.0 else 0.0
  }

  lemma PercentageBounds(completed: nat, inProgress: nat, total: nat)
    requires completed + inProgress <= total
    ensures 0.0 <= ProgressPercentage(completed, inProgress, total) <= 100.0
  {
    if total > 0 {
      var credit := completed as real + 0.25 * inProgress as real;
      assert credit <= total as real;
      DivideAtMostOne(credit, total as real);
    }
  }

  lemma DivideAtMostOne(a: real, b: real)
    requires 0.0 <= a <= b && 0.0 < b
    ensures 0.0 <= a / b <= 1.0
  {
  }

  /** Issues completed per session: `session_count` is 1 when absent, and a
      count that is not positive gives 0. */
  function Velocity(completed: nat, sessionCount: Option<int>): (v: real)
    ensures 0.0 <= v
    ensures sessionCount == None ==> v == completed as real
    ensures sessionCount.Some? && sessionCount.value <= 0 ==> v == 0.0
    ensures sessionCount.Some? && sessionCount.value > 0 ==> v * sessionCount.value as real == completed as real
  {
    var sessions := sessionCount.GetOr(1);
    if sessions > 0 then completed as real / sessions as real else 0.0
  }

  /** Python's `int(x)` on a float: truncation toward zero. */
  function Trunc(x: real): int {
    if x >= 0.0 then x.Floor else -((-x).Floor)
  }

  /** The whole number of days for `remaining` issues at `velocity` issues
      per session and two sessions a day. */
  function EstimatedDays(remaining: nat, velocity: real): (d: nat)
    requires velocity > 0.0
    ensures d as real <= remaining as real / velocity * 0.5 < d as real + 1.0
  {
    var days := remaining as real / velocity * 0.5;
    assert days >= 0.0;
    Trunc(days)
  }

  /** `"Unknown"` without velocity, otherwise `"<days> days"`. */
  function EstimatedCompletion(remaining: nat, velocity: real): (s: string)
    ensures s == "Unknown" <==> velocity <= 0.0
    ensures velocity > 0.0 ==> s == Decimal.NatToString(EstimatedDays(remaining, velocity)) + " days"
  {
    if velocity > 0.0 then
      var digits := Decimal.NatToString(EstimatedDays(remaining, velocity));
      assert (digits + " days")[|digits| + 4] == 's';
      digits + " days"
    else "Unknown"
  }

  /** `calculate_progress`, with `sessionCount` the project's stored
      `session_count` (None when it has none). */
  function CalculateProgress(issues: seq<Issue>, sessionCount: Option<int>): (p: ProgressReport)
    ensures p.totalIssues == |issues|
    ensures p.completed + p.inProgress + p.todo == p.totalIssues
    ensures p.completed == |WithState(issues, DoneState)| && p.inProgress == |WithState(issues, InProgressState)|
    ensures p.todo == CountNotStarted(issues)
    ensures 0.0 <= p.progressPercentage <= 100.0
    ensures issues == [] ==> p.progressPercentage == 0.0
    ensures p.progressPercentage == ProgressPercentage(p.completed, p.inProgress, p.totalIssues)
    ensures 0.0 <= p.velocity
    ensures p.velocity == Velocity(p.completed, sessionCount)
    ensures p.estimatedCompletion == "Unknown" <==> p.velocity <= 0.0
    ensures p.velocity > 0.0 ==>
              p.estimatedCompletion == Decimal.NatToString(EstimatedDays(p.todo + p.inProgress, p.velocity)) + " days"
  {
    var total := |issues|;
    var completed := |WithState(issues, DoneState)|;
    var inProgress := |WithState(issues, InProgressState)|;
    CountsPartition(issues);
    var todo := total - completed - inProgress;
    PercentageBounds(completed, inProgress, total);
    var velocity := Velocity(completed, sessionCount);
    ProgressReport(total, completed, inProgress, todo, ProgressPercentage(completed, inProgress, total),
                   velocity, EstimatedCompletion(todo + inProgress, velocity))
  }

  /** Moving one issue forward (not started to In Progress, or In Progress
      to Done) with everything else fixed raises the percentage. */
  lemma {:induction false} ProgressMonotone(issues: seq<Issue>, k: nat, moved: Issue, sessionCount: Option<int>)
    requires k < |issues|
    requires (NotStarted(issues[k]) && StateIs(moved, InProgressState))
          || (StateIs(issues[k], InProgressState) && StateIs(moved, DoneState))
    ensures CalculateProgress(issues, sessionCount).progressPercentage
          < CalculateProgress(issues[k := moved], sessionCount).progressPercentage
  {
    var after := issues[k := moved];
    WithStateUpdate(issues, k, moved, DoneState);
    WithStateUpdate(issues, k, moved, InProgressState);
    var c, i := |WithState(issues, DoneState)|, |WithState(issues, InProgressState)|;
    var c', i' := |WithState(after, DoneState)|, |WithState(after, InProgressState)|;
    assert c as real + 0.25 * i as real < c' as real + 0.25 * i' as real;
    DivideStrict(c as real + 0.25 * i as real, c' as real + 0.25 * i' as real, |issues| as real);
    assert ProgressPercentage(c, i, |issues|) < ProgressPercentage(c', i', |after|);
  }

  lemma DivideStrict(a: real, b: real, c: real)
    requires a < b && 0.0 < c
    ensures a / c * 100.0 < b / c * 100.0
  {
  }

  /** Ten issues, four done, two in progress, two sessions: 45%, velocity 2,
      four not started, and one and a half days truncated to one. */
  lemma EndToEnd(issues: seq<Issue>)
    requires |issues| == 10
    requires |WithState(issues, DoneState)| == 4 && |WithState(issues, InProgressState)| == 2
    ensures CalculateProgress(issues, Some(2)).progressPercentage == 45.0
    ensures CalculateProgress(issues, Some(2)).velocity == 2.0
    ensures CalculateProgress(issues, Some(2)).todo == 4
    ensures CalculateProgress(issues, Some(2)).estimatedCompletion == "1 days"
  {
    assert EstimatedDays(6, 2.0) == 1;
    assert Decimal.NatToString(1) == "1";
  }

  /** At 45% with velocity 2 and no errors the project is in `features`
      and on track. */
  lemma EndToEndPhase()
    ensures DetermineCurrentMilestone(45.0).key == Features
    ensures DetermineHealthStatus(45.0, 2.0, 0) == OnTrack
  {
    assert Milestones[1].target as real <= 45.0;
  }

  // ---------------------------------------------------------------------
  // Next-session priorities

  /** The message and the labels exactly as the source spells them: each
      emoji appears as its UTF-8 bytes read as Windows-1252 text, so these
      are the characters the program returns. */
  const AllCompletedMessage: string := "\U{F0}\U{178}\U{17D}\U{2030} All issues completed!"

  /** The four labels, urgent first. */
  const PriorityLabels: seq<string> := ["\U{F0}\U{178}\U{201D}\U{B4} URGENT", "\U{F0}\U{178}\U{178}\U{A0} HIGH",
                                        "\U{F0}\U{178}\U{178}\U{A1} MEDIUM", "\U{F0}\U{178}\U{178}\U{A2} LOW"]

  /** The error the source raises when a priority indexes past the labels. */
  datatype PriorityError = IndexError(priority: int)

  /** `issue.get('priority', 4)`: a missing priority sorts as low. */
  function PriorityOf(i: Issue): int {
    i.priority.GetOr(4)
  }

  /** `labels[priority - 1]` with Python's indexing: 1..4 pick a label in
      order, 0..-3 wrap around from the end, anything else raises. */
  function PriorityLabel(priority: int): (r: Result<string, PriorityError>)
    ensures r.Ok? <==> -3 <= priority <= 4
    ensures 1 <= priority <= 4 ==> r == Ok(PriorityLabels[priority - 1])
    ensures -3 <= priority <= 0 ==> r == Ok(PriorityLabels[priority + 3])
    ensures r.Err? ==> r.error == IndexError(priority)
  {
    var index := priority - 1;
    if 0 <= index < |PriorityLabels| then Ok(PriorityLabels[index])
    else if -|PriorityLabels| <= index < 0 then Ok(PriorityLabels[index + |PriorityLabels|])
    else Err(IndexError(priority))
  }

  predicate SortedByPriority(s: seq<Issue>) {
    forall i, j :: 0 <= i < j < |s| ==> PriorityOf(s[i]) <= PriorityOf(s[j])
  }

  /** Places `x` before the first element of `s` with a larger priority
      value. Ties go to `x`: it stood before all of `s` in the input. */
  function InsertByPriority(x: Issue, s: seq<Issue>): (r: seq<Issue>)
    ensures multiset(r) == multiset(s) + multiset{x}
  {
    if s == [] || PriorityOf(x) <= PriorityOf(s[0]) then [x] + s
    else
      assert s == [s[0]] + s[1..];
      [s[0]] + InsertByPriority(x, s[1..])
  }

  lemma {:induction false} InsertKeepsSorted(x: Issue, s: seq<Issue>)
    requires SortedByPriority(s)
    ensures SortedByPriority(InsertByPriority(x, s))
  {
    if s != [] && PriorityOf(x) > PriorityOf(s[0]) {
      var rest := InsertByPriority(x, s[1..]);
      InsertKeepsSorted(x, s[1..]);
      InsertKeepsLowerBound(x, s[1..], PriorityOf(s[0]));
      var r := [s[0]] + rest;
      forall a, b | 0 <= a < b < |r|
        ensures PriorityOf(r[a]) <= PriorityOf(r[b])
      {
        if a > 0 {
          assert r[a] == rest[a - 1] && r[b] == rest[b - 1];
        } else {
          assert r[b] == rest[b - 1];
        }
      }
    }
  }

  /** Inserting an issue no more urgent than `bound` into issues none more
      urgent than `bound` gives issues none more urgent than `bound`. */
  lemma InsertKeepsLowerBound(x: Issue, s: seq<Issue>, bound: int)
    requires bound <= PriorityOf(x)
    requires forall j :: 0 <= j < |s| ==> bound <= PriorityOf(s[j])
    ensures forall j :: 0 <= j < |InsertByPriority(x, s)| ==> bound <= PriorityOf(InsertByPriority(x, s)[j])
  {
    var r := InsertByPriority(x, s);
    forall j | 0 <= j < |r|
      ensures bound <= PriorityOf(r[j])
    {
      assert r[j] in multiset(r);
      if r[j] != x {
        assert r[j] in multiset(s);
      }
    }
  }

  /** `list.sort(key=priority)`: stable insertion sort by priority. */
  function SortByPriority(s: seq<Issue>): (r: seq<Issue>)
    ensures multiset(r) == multiset(s)
    ensures SortedByPriority(r)
  {
    if s == [] then []
    else
      assert s == [s[0]] + s[1..];
      InsertKeepsSorted(s[0], SortByPriority(s[1..]));
      InsertByPriority(s[0], SortByPriority(s[1..]))
  }

  /** The issues of one priority value, in order. */
  function WithPriority(s: seq<Issue>, p: int): seq<Issue> {
    if s == [] then []
    else (if PriorityOf(s[0]) == p then [s[0]] else []) + WithPriority(s[1..], p)
  }

  lemma {:induction false} InsertKeepsOrder(x: Issue, s: seq<Issue>, p: int)
    ensures WithPriority(InsertByPriority(x, s), p) == (if PriorityOf(x) == p then [x] else []) + WithPriority(s, p)
  {
    if s == [] || PriorityOf(x) <= PriorityOf(s[0]) {
      assert ([x] + s)[1..] == s;
    } else {
      var rest := InsertByPriority(x, s[1..]);
      assert ([s[0]] + rest)[1..] == rest;
      InsertKeepsOrder(x, s[1..], p);
    }
  }

  /** Stability: among issues of equal priority the sort keeps input order. */
  lemma {:induction false} SortIsStable(s: seq<Issue>, p: int)
    ensures WithPriority(SortByPriority(s), p) == WithPriority(s, p)
  {
    if s != [] {
      SortIsStable(s[1..], p);
      InsertKeepsOrder(s[0], SortByPriority(s[1..]), p);
    }
  }

  function Min(a: int, b: int): int {
    if a <= b then a else b
  }

  /** The at most three `Todo` issues the summary lists, in priority order. */
  function TopTodo(allIssues: seq<Issue>): seq<Issue> {
    var todo := SortByPriority(WithState(allIssues, TodoState));
    todo[..Min(3, |todo|)]
  }

  /** What `TopTodo` picks: at most three issues, three whenever there are
      that many `Todo` issues, all of them `Todo` issues of the input, in
      priority order. */
  lemma TopTodoSelects(allIssues: seq<Issue>)
    ensures |TopTodo(allIssues)| == Min(3, |WithState(allIssues, TodoState)|)
    ensures forall i :: i in TopTodo(allIssues) ==> StateIs(i, TodoState) && i in allIssues
    ensures SortedByPriority(TopTodo(allIssues))
  {
    var todo := WithState(allIssues, TodoState);
    var sorted := SortByPriority(todo);
    assert |sorted| == |todo| by {
      assert |multiset(sorted)| == |multiset(todo)|;
    }
    var top := sorted[..Min(3, |sorted|)];
    forall i | i in top
      ensures StateIs(i, TodoState) && i in allIssues
    {
      assert i in multiset(sorted);
    }
  }

  /** No `Todo` issue left out of `TopTodo` has a more urgent priority than
      one that was picked. */
  lemma TopTodoIsMostUrgent(allIssues: seq<Issue>, x: Issue, y: Issue)
    requires x in TopTodo(allIssues)
    requires y in multiset(WithState(allIssues, TodoState)) - multiset(TopTodo(allIssues))
    ensures PriorityOf(x) <= PriorityOf(y)
  {
    var todo := WithState(allIssues, TodoState);
    var sorted := SortByPriority(todo);
    var n := Min(3, |sorted|);
    PrefixComplement(sorted, n);
    assert multiset(todo) == multiset(sorted);
    assert y in sorted[n..];
    SortedPrefixFirst(sorted, n, x, y);
  }

  /** Taking a prefix's elements out of a sequence leaves those of the rest. */
  lemma PrefixComplement(s: seq<Issue>, n: nat)
    requires n <= |s|
    ensures multiset(s) - multiset(s[..n]) == multiset(s[n..])
  {
    assert s == s[..n] + s[n..];
  }

  /** In a sorted sequence no element of a prefix comes after one of the rest. */
  lemma SortedPrefixFirst(s: seq<Issue>, n: nat, x: Issue, y: Issue)
    requires SortedByPriority(s) && n <= |s|
    requires x in s[..n] && y in s[n..]
    ensures PriorityOf(x) <= PriorityOf(y)
  {
    var a :| 0 <= a < n && s[..n][a] == x;
    var b :| 0 <= b < |s| - n && s[n..][b] == y;
    assert s[a] == x && s[n + b] == y;
  }

  /** One line of the list: `- <label>: <title>`. */
  function PriorityLine(i: Issue): Result<string, PriorityError> {
    match PriorityLabel(PriorityOf(i))
    case Ok(tag) => Ok("- " + tag + ": " + i.title.GetOr("Unknown"))
    case Err(e) => Err(e)
  }

  /** The lines of `top` in order, or the error of the first issue whose
      priority has no label. */
  function PriorityLines(top: seq<Issue>): (r: Result<seq<string>, PriorityError>)
    ensures r.Ok? <==> forall i :: 0 <= i < |top| ==> PriorityLine(top[i]).Ok?
    ensures r.Ok? ==> |r.value| == |top| && forall i :: 0 <= i < |top| ==> r.value[i] == PriorityLine(top[i]).value
  {
    if top == [] then Ok([])
    else
      var init := top[..|top| - 1];
      match PriorityLines(init)
      case Err(e) => Err(e)
      case Ok(lines) =>
        match PriorityLine(top[|top| - 1])
        case Err(e) => Err(e)
        case Ok(line) => Ok(lines + [line])
  }

  /** Once a prefix fails, the whole list fails with the same error. */
  lemma {:induction false} PriorityLinesFailEarly(top: seq<Issue>, n: nat, e: PriorityError)
    requires n <= |top| && PriorityLines(top[..n]) == Err(e)
    ensures PriorityLines(top) == Err(e)
    decreases |top| - n
  {
    if n < |top| {
      assert top[..n + 1][..n] == top[..n];
      PriorityLinesFailEarly(top, n + 1, e);
    } else {
      assert top[..n] == top;
    }
  }

  /** One more issue adds its line, or its error. */
  lemma PriorityLinesStep(top: seq<Issue>, i: nat, lines: seq<string>)
    requires i < |top| && PriorityLines(top[..i]) == Ok(lines)
    ensures PriorityLines(top[..i + 1]) == match PriorityLine(top[i])
                                           case Ok(line) => Ok(lines + [line])
                                           case Err(e) => Err(e)
  {
    assert top[..i + 1][..i] == top[..i];
  }

  /** `'\n'.join(lines)`. */
  function Join(lines: seq<string>): string {
    if lines == [] then ""
    else if |lines| == 1 then lines[0]
    else Join(lines[..|lines| - 1]) + "\n" + lines[|lines| - 1]
  }

  lemma {:induction false} JoinStartsWithFirst(lines: seq<string>)
    requires lines != [] && lines[0] != ""
    ensures Join(lines) != "" && Join(lines)[0] == lines[0][0]
  {
    if |lines| > 1 {
      var init := lines[..|lines| - 1];
      assert init[0] == lines[0];
      JoinStartsWithFirst(init);
    }
  }

  /** `_generate_next_priorities`: the all-completed message when no issue
      is `Todo`, otherwise one line per chosen issue. */
  method GenerateNextPriorities(allIssues: seq<Issue>) returns (r: Result<string, PriorityError>)
    ensures TopTodo(allIssues) == [] ==> r == Ok(AllCompletedMessage)
    ensures TopTodo(allIssues) != [] ==>
              r == match PriorityLines(TopTodo(allIssues))
                   case Ok(lines) => Ok(Join(lines))
                   case Err(e) => Err(e)
  {
    var todoIssues := SortByPriority(WithState(allIssues, TodoState));
    var top3 := todoIssues[..Min(3, |todoIssues|)];
    if top3 == [] {
      return Ok(AllCompletedMessage);
    }
    var priorities: seq<string> := [];
    for i := 0 to |top3|
      invariant PriorityLines(top3[..i]) == Ok(priorities)
    {
      var tag := PriorityLabel(PriorityOf(top3[i]));
      if tag.Err? {
        PriorityLinesStep(top3, i, priorities);
        PriorityLinesFailEarly(top3, i + 1, tag.error);
        return Err(tag.error);
      }
      var title := top3[i].title.GetOr("Unknown");
      PriorityLinesStep(top3, i, priorities);
      priorities := priorities + ["- " + tag.value + ": " + title];
    }
    assert top3[..|top3|] == top3;
    return Ok(Join(priorities));
  }

  /** The all-completed message comes out exactly when no issue is `Todo`. */
  lemma AllCompletedIffNoTodo(allIssues: seq<Issue>, lines: seq<string>)
    requires TopTodo(allIssues) != [] && PriorityLines(TopTodo(allIssues)) == Ok(lines)
    ensures Join(lines) != AllCompletedMessage
  {
    var first := PriorityLine(TopTodo(allIssues)[0]).value;
    assert lines[0] == first && first[0] == '-';
    JoinStartsWithFirst(lines);
    assert AllCompletedMessage[0] == '\U{F0}';
  }

  /** With every `Todo` priority in 1..4 (or missing) no label lookup fails. */
  lemma KnownPrioritiesNeverFail(allIssues: seq<Issue>)
    requires forall i :: i in allIssues && StateIs(i, TodoState) ==> 1 <= PriorityOf(i) <= 4
    ensures PriorityLines(TopTodo(allIssues)).Ok?
  {
    TopTodoSelects(allIssues);
    var top := TopTodo(allIssues);
    forall k | 0 <= k < |top|
      ensures PriorityLine(top[k]).Ok?
    {
      assert top[k] in top;
    }
  }

  // ---------------------------------------------------------------------
  // The project record and its histories

  /** A session summary as the orchestrator hands it over; only the keys the
      histories read are modelled. */
  datatype SessionSummary = SessionSummary(
    health: Option<string>,
    progressPercentage: Option<real>,
    velocity: Option<real>,
    issuesCompleted: Option<int>)

  datatype HealthRecord = HealthRecord(timestamp: Stamp, health: string, progress: real)

  datatype VelocityRecord = VelocityRecord(timestamp: Stamp, velocity: real, issuesCompleted: int)

  /** `.linear_project.json`: each key may be missing. */
  datatype ProjectData = ProjectData(
    initialized: Option<bool>,
    createdAt: Option<Stamp>,
    projectId: Option<string>,
    projectName: Option<string>,
    totalIssues: Option<int>,
    issuesByPriority: Option<map<string, int>>,
    milestonesCreated: Option<bool>,
    sessionCount: Option<int>,
    milestones: Option<seq<Milestone>>,
    sessionHistory: Option<seq<SessionSummary>>,
    healthHistory: Option<seq<HealthRecord>>,
    velocityHistory: Option<seq<VelocityRecord>>)

  /** The record of a project that has no file yet (`{}`). */
  const NoProjectData: ProjectData :=
    ProjectData(None, None, None, None, None, None, None, None, None, None, None, None)

  /** The record the initializer session saves. */
  function CreateInitializerSummary(projectId: string, projectName: string, totalIssues: int,
                                    issuesByPriority: map<string, int>, createdAt: Stamp,
                                    milestonesCreated: bool := false): (d: ProjectData)
    ensures d.initialized == Some(true) && d.sessionCount == Some(0)
    ensures d.healthHistory == Some([]) && d.velocityHistory == Some([]) && d.sessionHistory == None
    ensures d.projectId == Some(projectId) && d.projectName == Some(projectName)
    ensures d.totalIssues == Some(totalIssues) && d.issuesByPriority == Some(issuesByPriority)
    ensures d.milestonesCreated == Some(milestonesCreated) && d.milestones == Some(Milestones)
  {
    ProjectData(Some(true), Some(createdAt), Some(projectId), Some(projectName), Some(totalIssues),
                Some(issuesByPriority), Some(milestonesCreated), Some(0), Some(Milestones),
                None, Some([]), Some([]))
  }

  function HealthEntry(summary: SessionSummary, stamp: Stamp): HealthRecord {
    HealthRecord(stamp, summary.health.GetOr("unknown"), summary.progressPercentage.GetOr(0.0))
  }

  function VelocityEntry(summary: SessionSummary, stamp: Stamp): VelocityRecord {
    VelocityRecord(stamp, summary.velocity.GetOr(0.0), summary.issuesCompleted.GetOr(0))
  }

  /** The record after one session has been logged. */
  function AfterSession(d: ProjectData, summary: SessionSummary, stamp: Stamp): ProjectData {
    var sessions := d.sessionHistory.GetOr([]) + [summary];
    d.(sessionHistory := Some(sessions),
       sessionCount := Some(|sessions|),
       healthHistory := Some(d.healthHistory.GetOr([]) + [HealthEntry(summary, stamp)]),
       velocityHistory := Some(d.velocityHistory.GetOr([]) + [VelocityEntry(summary, stamp)]))
  }

  /** The record after a run of sessions, oldest first. */
  function AfterSessions(d: ProjectData, summaries: seq<SessionSummary>, stamp: Stamp): ProjectData {
    if summaries == [] then d
    else AfterSession(AfterSessions(d, summaries[..|summaries| - 1], stamp), summaries[|summaries| - 1], stamp)
  }

  /** From the initializer's record, n logged sessions leave the n summaries
      in order, n entries in each of the other two histories, and a session
      count of n; the project's identity is untouched. */
  lemma {:induction false} SessionsReplay(init: ProjectData, summaries: seq<SessionSummary>, stamp: Stamp)
    requires init.sessionHistory == None && init.healthHistory == Some([]) && init.velocityHistory == Some([])
    ensures var d := AfterSessions(init, summaries, stamp);
            && d.sessionHistory.GetOr([]) == summaries
            && d.sessionCount == (if summaries == [] then init.sessionCount else Some(|summaries|))
            && d.healthHistory.Some? && |d.healthHistory.value| == |summaries|
            && d.velocityHistory.Some? && |d.velocityHistory.value| == |summaries|
            && d.projectId == init.projectId && d.projectName == init.projectName
  {
    if summaries != [] {
      var init' := summaries[..|summaries| - 1];
      SessionsReplay(init, init', stamp);
      assert init' + [summaries[|summaries| - 1]] == summaries;
    }
  }

  /** Once sessions are logged, velocity is completed issues per logged
      session. */
  lemma VelocityPerLoggedSession(init: ProjectData, summaries: seq<SessionSummary>, stamp: Stamp, issues: seq<Issue>)
    requires init.sessionHistory == None && init.healthHistory == Some([]) && init.velocityHistory == Some([])
    requires summaries != []
    ensures CalculateProgress(issues, AfterSessions(init, summaries, stamp).sessionCount).velocity
            == |WithState(issues, DoneState)| as real / |summaries| as real
  {
    SessionsReplay(init, summaries, stamp);
  }

  /** The integration object's persistent part: the project record, which
      `update_session_history` extends in place. */
  class EnhancedLinearIntegration {
    var projectData: ProjectData
    /** What `_save_project_data` last wrote; None before the first save. */
    ghost var saved: Option<ProjectData>

    /** Starts from the record read from disk, or `{}` without a file. */
    constructor (loaded: Option<ProjectData>)
      ensures projectData == loaded.GetOr(NoProjectData) && saved == None
    {
      projectData := loaded.GetOr(NoProjectData);
      saved := None;
    }

    /** Appends one entry to each of the three histories (creating a missing
        one), sets the session count to the number of logged sessions,
        leaves every earlier entry and every other key alone, and saves. */
    method UpdateSessionHistory(summary: SessionSummary, stamp: Stamp)
      modifies this
      ensures projectData == AfterSession(old(projectData), summary, stamp)
      ensures projectData.sessionHistory == Some(old(projectData).sessionHistory.GetOr([]) + [summary])
      ensures projectData.sessionCount == Some(|projectData.sessionHistory.value|)
      ensures projectData.healthHistory == Some(old(projectData).healthHistory.GetOr([]) + [HealthEntry(summary, stamp)])
      ensures projectData.velocityHistory == Some(old(projectData).velocityHistory.GetOr([]) + [VelocityEntry(summary, stamp)])
      ensures saved == Some(projectData)
    {
      if projectData.sessionHistory.None? {
        projectData := projectData.(sessionHistory := Some([]));
      }
      projectData := projectData.(sessionHistory := Some(projectData.sessionHistory.value + [summary]));
      projectData := projectData.(sessionCount := Some(|projectData.sessionHistory.value|));

      if projectData.healthHistory.None? {
        projectData := projectData.(healthHistory := Some([]));
      }
      var health := HealthRecord(stamp, summary.health.GetOr("unknown"), summary.progressPercentage.GetOr(0.0));
      projectData := projectData.(healthHistory := Some(projectData.healthHistory.value + [health]));

      if projectData.velocityHistory.None? {
        projectData := projectData.(velocityHistory := Some([]));
      }
      var velocity := VelocityRecord(stamp, summary.velocity.GetOr(0.0), summary.issuesCompleted.GetOr(0));
      projectData := projectData.(velocityHistory := Some(projectData.velocityHistory.value + [velocity]));

      SaveProjectData();
    }

    method SaveProjectData()
      modifies this`saved
      ensures saved == Some(projectData)
    {
      saved := Some(projectData);
    }
  }
}
