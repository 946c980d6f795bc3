/** validateWorkflow: walks the tasks in order and, for each, the ids it lists
    in order, collecting tagged errors. Actions that no task lists are never
    looked at. */
module Validator {
  import opened WorkflowTypes
  import opened StoreOps
  import WorkflowStore

  datatype ValidationError =
    | TaskHasNoName(taskId: string)
    | MissingAction(taskId: string, actionId: string)
    | ActionHasNoType(actionId: string)
    | DanglingNext(actionId: string, target: string)
    | DanglingNextIf(actionId: string, target: string)
    | BadRetryStrategy(actionId: string, strategy: string)
    | BadMaxAttempts(actionId: string, maxAttempts: real)
    | BadDelay(actionId: string, delay: real)
    | BadTimeoutDuration(actionId: string, duration: real)
    | DanglingOnTimeout(actionId: string, target: string)

  datatype Report = Report(valid: bool, errors: seq<ValidationError>)

  // ---------------------------------------------------------------------
  // String.prototype.trim

  /** The characters ECMAScript counts as WhiteSpace or LineTerminator. */
  predicate IsJsSpace(c: char) {
    var n := c as int;
    || 0x09 <= n <= 0x0D || n == 0x20 || n == 0xA0 || n == 0x1680
    || 0x2000 <= n <= 0x200A || n == 0x2028 || n == 0x2029 || n == 0x202F
    || n == 0x205F || n == 0x3000 || n == 0xFEFF
  }

  predicate IsBlank(s: string) {
    forall i :: 0 <= i < |s| ==> IsJsSpace(s[i])
  }

  /** Drops leading white space: the result is a suffix of `s` that does not
      start with white space. */
  function TrimStart(s: string): (r: string)
    ensures |r| <= |s| && r == s[|s| - |r|..]
    ensures r == [] || !IsJsSpace(r[0])
  {
    if s != [] && IsJsSpace(s[0]) then TrimStart(s[1..]) else s
  }

  /** Drops trailing white space: the result is a prefix of `s` that does not
      end with white space. */
  function TrimEnd(s: string): (r: string)
    ensures |r| <= |s| && r == s[..|r|]
    ensures r == [] || !IsJsSpace(r[|r| - 1])
  {
    if s != [] && IsJsSpace(s[|s| - 1]) then TrimEnd(s[..|s| - 1]) else s
  }

  /** `String.prototype.trim`: no longer than `s`, and neither starts nor
      ends with white space. */
  function Trim(s: string): (r: string)
    ensures |r| <= |s|
    ensures r == [] || (!IsJsSpace(r[0]) && !IsJsSpace(r[|r| - 1]))
  {
    TrimEnd(TrimStart(s))
  }

  lemma {:induction false} TrimStartBlank(s: string)
    ensures TrimStart(s) == [] <==> IsBlank(s)
    ensures TrimStart(s) != [] ==> !IsJsSpace(TrimStart(s)[0])
  {
    if s != [] && IsJsSpace(s[0]) {
      TrimStartBlank(s[1..]);
      assert IsBlank(s) <==> IsBlank(s[1..]) by {
        assert forall i :: 0 < i < |s| ==> s[i] == s[1..][i - 1];
      }
    }
  }

  lemma {:induction false} TrimEndBlank(s: string)
    ensures TrimEnd(s) == [] <==> IsBlank(s)
  {
    if s != [] && IsJsSpace(s[|s| - 1]) {
      TrimEndBlank(s[..|s| - 1]);
      assert IsBlank(s) <==> IsBlank(s[..|s| - 1]) by {
        assert forall i :: 0 <= i < |s| - 1 ==> s[i] == s[..|s| - 1][i];
      }
    }
  }

  /** `name.trim() === ''` holds exactly for the empty or all-whitespace names. */
  lemma TrimEmptyIffBlank(s: string)
    ensures Trim(s) == "" <==> IsBlank(s)
  {
    TrimStartBlank(s);
    TrimEndBlank(TrimStart(s));
  }

  // ---------------------------------------------------------------------
  // The checks, as functions that build the error sequence

  function NameErrors(t: Task): seq<ValidationError> {
    if Trim(t.name) == "" then [TaskHasNoName(t.id)] else []
  }

  function RetryErrors(id: string, retry: Option<RetryConfig>): seq<ValidationError> {
    match retry
    case None => []
    case Some(r) =>
      (if r.strategy !in ["fixed", "exponential"] then [BadRetryStrategy(id, r.strategy)] else [])
      + (if r.maxAttempts < 1.0 then [BadMaxAttempts(id, r.maxAttempts)] else [])
      + (if r.delay < 0.0 then [BadDelay(id, r.delay)] else [])
  }

  function TimeoutErrors(id: string, timeout: Option<TimeoutConfig>, m: map<string, Action>): seq<ValidationError> {
    match timeout
    case None => []
    case Some(t) =>
      (if t.duration < 0.0 then [BadTimeoutDuration(id, t.duration)] else [])
      + (if Truthy(t.onTimeout) && t.onTimeout.value !in m then [DanglingOnTimeout(id, t.onTimeout.value)] else [])
  }

  /** The type check and the `next` and `next_if` reference checks. */
  function LinkErrors(id: string, a: Action, m: map<string, Action>): seq<ValidationError> {
    (if a.kind == "" then [ActionHasNoType(id)] else [])
    + (if a.flow.next.Linked? && a.flow.next.target != "" && a.flow.next.target !in m
       then [DanglingNext(id, a.flow.next.target)] else [])
    + (if Truthy(a.flow.nextIf) && a.flow.nextIf.value !in m then [DanglingNextIf(id, a.flow.nextIf.value)] else [])
  }

  function ActionErrors(id: string, a: Action, m: map<string, Action>): seq<ValidationError> {
    LinkErrors(id, a, m) + RetryErrors(id, a.flow.retry) + TimeoutErrors(id, a.flow.timeout, m)
  }

  /** The errors for one listed id: a dangling reference stops the checks. */
  function ListedErrors(taskId: string, id: string, m: map<string, Action>): seq<ValidationError> {
    if id !in m then [MissingAction(taskId, id)] else ActionErrors(id, m[id], m)
  }

  function ListErrors(taskId: string, ids: seq<string>, m: map<string, Action>): seq<ValidationError> {
    if ids == [] then [] else ListedErrors(taskId, ids[0], m) + ListErrors(taskId, ids[1..], m)
  }

  function TaskErrors(t: Task, m: map<string, Action>): seq<ValidationError> {
    NameErrors(t) + ListErrors(t.id, t.actions, m)
  }

  function WorkflowErrors(ts: seq<Task>, m: map<string, Action>): seq<ValidationError> {
    if ts == [] then [] else TaskErrors(ts[0], m) + WorkflowErrors(ts[1..], m)
  }

  // ---------------------------------------------------------------------
  // An independent statement of what a valid workflow is

  predicate RetryOk(r: RetryConfig) {
    (r.strategy == "fixed" || r.strategy == "exponential") && r.maxAttempts >= 1.0 && r.delay >= 0.0
  }

  predicate ActionOk(a: Action, m: map<string, Action>) {
    && a.kind != ""
    && (a.flow.next.Linked? && a.flow.next.target != "" ==> a.flow.next.target in m)
    && (Truthy(a.flow.nextIf) ==> a.flow.nextIf.value in m)
    && (a.flow.retry.Some? ==> RetryOk(a.flow.retry.value))
    && (a.flow.timeout.Some? ==>
          a.flow.timeout.value.duration >= 0.0
          && (Truthy(a.flow.timeout.value.onTimeout) ==> a.flow.timeout.value.onTimeout.value in m))
  }

  predicate ListOk(ids: seq<string>, m: map<string, Action>) {
    forall id :: id in ids ==> id in m && ActionOk(m[id], m)
  }

  predicate WellFormed(ts: seq<Task>, m: map<string, Action>) {
    forall i :: 0 <= i < |ts| ==> !IsBlank(ts[i].name) && ListOk(ts[i].actions, m)
  }

  lemma ActionErrorsEmptyIff(id: string, a: Action, m: map<string, Action>)
    ensures ActionErrors(id, a, m) == [] <==> ActionOk(a, m)
  {
  }

  lemma ListedErrorsEmptyIff(tid: string, id: string, m: map<string, Action>)
    ensures ListedErrors(tid, id, m) == [] <==> id in m && ActionOk(m[id], m)
  {
    if id in m {
      ActionErrorsEmptyIff(id, m[id], m);
    }
  }

  lemma {:induction false} ListErrorsEmptyIff(tid: string, ids: seq<string>, m: map<string, Action>)
    ensures ListErrors(tid, ids, m) == [] <==> ListOk(ids, m)
  {
    if ids != [] {
      ListErrorsEmptyIff(tid, ids[1..], m);
      ListedErrorsEmptyIff(tid, ids[0], m);
      var h, rest := ListedErrors(tid, ids[0], m), ListErrors(tid, ids[1..], m);
      assert ListErrors(tid, ids, m) == h + rest;
      assert h + rest == [] <==> h == [] && rest == [] by {
        assert |h + rest| == |h| + |rest|;
      }
      assert forall id :: id in ids <==> id == ids[0] || id in ids[1..];
    }
  }

  lemma TaskErrorsEmptyIff(t: Task, m: map<string, Action>)
    ensures TaskErrors(t, m) == [] <==> !IsBlank(t.name) && ListOk(t.actions, m)
  {
    TrimEmptyIffBlank(t.name);
    ListErrorsEmptyIff(t.id, t.actions, m);
  }

  lemma {:induction false} ValidIffWellFormed(ts: seq<Task>, m: map<string, Action>)
    ensures WorkflowErrors(ts, m) == [] <==> WellFormed(ts, m)
  {
    if ts != [] {
      ValidIffWellFormed(ts[1..], m);
      TaskErrorsEmptyIff(ts[0], m);
      var h, rest := TaskErrors(ts[0], m), WorkflowErrors(ts[1..], m);
      assert WorkflowErrors(ts, m) == h + rest;
      assert h + rest == [] <==> h == [] && rest == [] by {
        assert |h + rest| == |h| + |rest|;
      }
      WellFormedCons(ts, m);
    }
  }

  lemma WellFormedCons(ts: seq<Task>, m: map<string, Action>)
    requires ts != []
    ensures WellFormed(ts, m) <==> (!IsBlank(ts[0].name) && ListOk(ts[0].actions, m)) && WellFormed(ts[1..], m)
  {
    assert forall i :: 0 < i < |ts| ==> ts[i] == ts[1..][i - 1];
  }

  // ---------------------------------------------------------------------
  // Order and scope of the errors

  lemma {:induction false} ListErrorsAppend(tid: string, a: seq<string>, b: seq<string>, m: map<string, Action>)
    ensures ListErrors(tid, a + b, m) == ListErrors(tid, a, m) + ListErrors(tid, b, m)
  {
    if a != [] {
      var h, ra, rb := ListedErrors(tid, a[0], m), ListErrors(tid, a[1..], m), ListErrors(tid, b, m);
      assert (a + b)[0] == a[0] && (a + b)[1..] == a[1..] + b;
      ListErrorsAppend(tid, a[1..], b, m);
      assert ListErrors(tid, a + b, m) == h + (ra + rb);
      Assoc(h, ra, rb);
    } else {
      assert a + b == b;
    }
  }

  lemma ListErrorsSnoc(tid: string, ids: seq<string>, j: int, m: map<string, Action>)
    requires 0 <= j < |ids|
    ensures ListErrors(tid, ids[..j + 1], m) == ListErrors(tid, ids[..j], m) + ListedErrors(tid, ids[j], m)
  {
    assert ids[..j + 1] == ids[..j] + [ids[j]];
    ListErrorsAppend(tid, ids[..j], [ids[j]], m);
  }

  /** Pushing the next chunk onto an accumulator that already holds a prefix. */
  lemma Extend<T>(base: seq<T>, before: seq<T>, after: seq<T>, done: seq<T>, step: seq<T>, whole: seq<T>)
    requires before == base + done && after == before + step && whole == done + step
    ensures after == base + whole
  {
  }

  /** The error names action `id` and is about that action alone. */
  predicate AboutAction(e: ValidationError, id: string) {
    !e.TaskHasNoName? && !e.MissingAction? && e.actionId == id
  }

  lemma LinkErrorsAreAbout(id: string, a: Action, m: map<string, Action>)
    ensures forall e :: e in LinkErrors(id, a, m) ==> AboutAction(e, id)
  {
  }

  lemma RetryErrorsAreAbout(id: string, retry: Option<RetryConfig>)
    ensures forall e :: e in RetryErrors(id, retry) ==> AboutAction(e, id)
  {
  }

  lemma TimeoutErrorsAreAbout(id: string, timeout: Option<TimeoutConfig>, m: map<string, Action>)
    ensures forall e :: e in TimeoutErrors(id, timeout, m) ==> AboutAction(e, id)
  {
  }

  /** Every error an action's checks report names that action, and none is a
      name error or a missing-action error. */
  lemma ActionErrorsAreAbout(id: string, a: Action, m: map<string, Action>)
    ensures forall e :: e in ActionErrors(id, a, m) ==> !e.TaskHasNoName? && !e.MissingAction? && e.actionId == id
  {
    var l, r, t := LinkErrors(id, a, m), RetryErrors(id, a.flow.retry), TimeoutErrors(id, a.flow.timeout, m);
    LinkErrorsAreAbout(id, a, m);
    RetryErrorsAreAbout(id, a.flow.retry);
    TimeoutErrorsAreAbout(id, a.flow.timeout, m);
    assert ActionErrors(id, a, m) == l + r + t;
    forall e | e in l + r + t ensures AboutAction(e, id) {
      assert e in l || e in r || e in t;
    }
  }

  /** The action-level checks never produce a name error. */
  lemma {:induction false} ListErrorsHaveNoNameError(tid: string, ids: seq<string>, m: map<string, Action>)
    ensures forall e :: e in ListErrors(tid, ids, m) ==> !e.TaskHasNoName?
  {
    if ids != [] {
      ListErrorsHaveNoNameError(tid, ids[1..], m);
      if ids[0] in m {
        ActionErrorsAreAbout(ids[0], m[ids[0]], m);
      }
      assert ListErrors(tid, ids, m) == ListedErrors(tid, ids[0], m) + ListErrors(tid, ids[1..], m);
    }
  }

  /** A task yields one "has no name" error when its name is empty or only
      whitespace, as the first of its errors, and none otherwise. */
  lemma BlankNameReportedOnce(t: Task, m: map<string, Action>)
    ensures multiset(TaskErrors(t, m))[TaskHasNoName(t.id)] == if IsBlank(t.name) then 1 else 0
    ensures IsBlank(t.name) ==> TaskErrors(t, m)[0] == TaskHasNoName(t.id)
  {
    TrimEmptyIffBlank(t.name);
    ListErrorsHaveNoNameError(t.id, t.actions, m);
    assert TaskHasNoName(t.id) !in ListErrors(t.id, t.actions, m);
    assert multiset(TaskErrors(t, m)) == multiset(NameErrors(t)) + multiset(ListErrors(t.id, t.actions, m));
  }

  /** A listed id missing from the map is reported as a dangling task reference,
      and only such ids are. */
  lemma {:induction false} MissingActionReported(tid: string, ids: seq<string>, m: map<string, Action>, id: string)
    ensures MissingAction(tid, id) in ListErrors(tid, ids, m) <==> id in ids && id !in m
  {
    if ids != [] {
      MissingActionReported(tid, ids[1..], m, id);
      if ids[0] in m {
        ActionErrorsAreAbout(ids[0], m[ids[0]], m);
      }
      assert ListErrors(tid, ids, m) == ListedErrors(tid, ids[0], m) + ListErrors(tid, ids[1..], m);
      assert id in ids <==> id == ids[0] || id in ids[1..];
    }
  }

  /** On a consistent store the dangling task-to-action check never fires. */
  lemma {:induction false} ConsistentHasNoMissingAction(ts: seq<Task>, m: map<string, Action>)
    requires forall i, x :: 0 <= i < |ts| && x in ts[i].actions ==> x in m
    ensures forall e :: e in WorkflowErrors(ts, m) ==> !e.MissingAction?
  {
    if ts != [] {
      forall i, x | 0 <= i < |ts[1..]| && x in ts[1..][i].actions ensures x in m {
        assert ts[1..][i] == ts[i + 1];
      }
      ConsistentHasNoMissingAction(ts[1..], m);
      assert forall x :: x in ts[0].actions ==> x in m;
      ResolvedTaskHasNoMissingAction(ts[0], m);
      assert WorkflowErrors(ts, m) == TaskErrors(ts[0], m) + WorkflowErrors(ts[1..], m);
    }
  }

  lemma ResolvedTaskHasNoMissingAction(t: Task, m: map<string, Action>)
    requires forall x :: x in t.actions ==> x in m
    ensures forall e :: e in TaskErrors(t, m) ==> !e.MissingAction?
  {
    ResolvedListHasNoMissingAction(t.id, t.actions, m);
    assert forall e :: e in NameErrors(t) ==> e.TaskHasNoName?;
  }

  lemma {:induction false} ResolvedListHasNoMissingAction(tid: string, ids: seq<string>, m: map<string, Action>)
    requires forall x :: x in ids ==> x in m
    ensures forall e :: e in ListErrors(tid, ids, m) ==> !e.MissingAction?
  {
    if ids != [] {
      ResolvedListHasNoMissingAction(tid, ids[1..], m);
      ActionErrorsAreAbout(ids[0], m[ids[0]], m);
      assert ListErrors(tid, ids, m) == ActionErrors(ids[0], m[ids[0]], m) + ListErrors(tid, ids[1..], m);
    }
  }

  /** The validator reads only the listed actions' contents and the map's key
      set: changing an action that no task lists does not change the errors. */
  lemma {:induction false} UnlistedNeverChecked(ts: seq<Task>, m1: map<string, Action>, m2: map<string, Action>)
    requires m1.Keys == m2.Keys
    requires forall i, x :: 0 <= i < |ts| && x in ts[i].actions && x in m1 ==> m1[x] == m2[x]
    ensures WorkflowErrors(ts, m1) == WorkflowErrors(ts, m2)
  {
    if ts != [] {
      forall i, x | 0 <= i < |ts[1..]| && x in ts[1..][i].actions && x in m1 ensures m1[x] == m2[x] {
        assert ts[1..][i] == ts[i + 1];
      }
      UnlistedNeverChecked(ts[1..], m1, m2);
      ListUnlistedNeverChecked(ts[0].id, ts[0].actions, m1, m2);
    }
  }

  lemma {:induction false} ListUnlistedNeverChecked(tid: string, ids: seq<string>, m1: map<string, Action>, m2: map<string, Action>)
    requires m1.Keys == m2.Keys
    requires forall x :: x in ids && x in m1 ==> m1[x] == m2[x]
    ensures ListErrors(tid, ids, m1) == ListErrors(tid, ids, m2)
  {
    if ids != [] {
      ListUnlistedNeverChecked(tid, ids[1..], m1, m2);
      if ids[0] in m1 {
        ActionErrorsReadKeysOnly(ids[0], m1[ids[0]], m1, m2);
      }
    }
  }

  /** The checks on one action look at the rest of the map only through its keys. */
  lemma ActionErrorsReadKeysOnly(id: string, a: Action, m1: map<string, Action>, m2: map<string, Action>)
    requires m1.Keys == m2.Keys
    ensures ActionErrors(id, a, m1) == ActionErrors(id, a, m2)
  {
    assert forall x :: x in m1 <==> x in m2;
  }

  /** The three retry checks are independent: `{strategy: "linear",
      max_attempts: 0, delay: -1}` on an otherwise sound action gives exactly
      three errors, in check order. */
  lemma RetryChecksIndependent(id: string, a: Action, m: map<string, Action>)
    requires id in m && m[id] == a && a.kind != ""
    requires a.flow == ActionFlow(Unset, None, Some(RetryConfig("linear", 0.0, -1.0)), None)
    ensures ListedErrors("t", id, m) ==
      [BadRetryStrategy(id, "linear"), BadMaxAttempts(id, 0.0), BadDelay(id, -1.0)]
  {
  }

  /** Each retry check is reported exactly when its own condition holds,
      whatever the other two find, and nothing else is reported. */
  lemma RetryErrorsExact(id: string, r: RetryConfig)
    ensures BadRetryStrategy(id, r.strategy) in RetryErrors(id, Some(r)) <==> r.strategy != "fixed" && r.strategy != "exponential"
    ensures BadMaxAttempts(id, r.maxAttempts) in RetryErrors(id, Some(r)) <==> r.maxAttempts < 1.0
    ensures BadDelay(id, r.delay) in RetryErrors(id, Some(r)) <==> r.delay < 0.0
    ensures |RetryErrors(id, Some(r))| ==
              (if r.strategy != "fixed" && r.strategy != "exponential" then 1 else 0)
              + (if r.maxAttempts < 1.0 then 1 else 0) + (if r.delay < 0.0 then 1 else 0)
    ensures RetryErrors(id, None) == []
  {
    var bad := r.strategy != "fixed" && r.strategy != "exponential";
    var l1 := if bad then [BadRetryStrategy(id, r.strategy)] else [];
    var l2 := if r.maxAttempts < 1.0 then [BadMaxAttempts(id, r.maxAttempts)] else [];
    var l3 := if r.delay < 0.0 then [BadDelay(id, r.delay)] else [];
    assert (r.strategy !in ["fixed", "exponential"]) == bad;
    assert RetryErrors(id, Some(r)) == l1 + l2 + l3;
  }

  /** The duration error is reported exactly for a negative duration, and the
      `on_timeout` error exactly for a non-empty target missing from the map. */
  lemma TimeoutErrorsExact(id: string, t: TimeoutConfig, m: map<string, Action>)
    ensures BadTimeoutDuration(id, t.duration) in TimeoutErrors(id, Some(t), m) <==> t.duration < 0.0
    ensures t.onTimeout.Some? ==>
              (DanglingOnTimeout(id, t.onTimeout.value) in TimeoutErrors(id, Some(t), m) <==> t.onTimeout.value != "" && t.onTimeout.value !in m)
    ensures t.onTimeout.None? ==> forall e :: e in TimeoutErrors(id, Some(t), m) ==> !e.DanglingOnTimeout?
    ensures |TimeoutErrors(id, Some(t), m)| ==
              (if t.duration < 0.0 then 1 else 0)
              + (if t.onTimeout.Some? && t.onTimeout.value != "" && t.onTimeout.value !in m then 1 else 0)
    ensures TimeoutErrors(id, None, m) == []
  {
  }

  /** `next` is reported exactly when it names an id missing from the map; a
      null or absent `next` is never reported. The same holds for `next_if`. */
  lemma NextReferencesChecked(id: string, a: Action, m: map<string, Action>)
    ensures a.flow.next.Linked? ==>
              (DanglingNext(id, a.flow.next.target) in LinkErrors(id, a, m) <==> a.flow.next.target != "" && a.flow.next.target !in m)
    ensures !a.flow.next.Linked? ==> forall e :: e in LinkErrors(id, a, m) ==> !e.DanglingNext?
    ensures a.flow.nextIf.Some? ==>
              (DanglingNextIf(id, a.flow.nextIf.value) in LinkErrors(id, a, m) <==> a.flow.nextIf.value != "" && a.flow.nextIf.value !in m)
    ensures a.flow.nextIf.None? ==> forall e :: e in LinkErrors(id, a, m) ==> !e.DanglingNextIf?
  {
  }

  /** A self-loop made by linkActions(a, a) is not a dangling `next`. */
  lemma SelfLoopNotDangling(m: map<string, Action>, a: string)
    requires a in m
    ensures var m' := m[a := WithNext(m[a], Linked(a))];
            forall e :: e in ListedErrors("t", a, m') ==> !e.DanglingNext?
  {
    var m' := m[a := WithNext(m[a], Linked(a))];
    assert a in m';
    assert ActionErrors(a, m'[a], m') ==
      (if m'[a].kind == "" then [ActionHasNoType(a)] else [])
      + (if Truthy(m'[a].flow.nextIf) && m'[a].flow.nextIf.value !in m' then [DanglingNextIf(a, m'[a].flow.nextIf.value)] else [])
      + RetryErrors(a, m'[a].flow.retry)
      + TimeoutErrors(a, m'[a].flow.timeout, m');
  }

  // ---------------------------------------------------------------------
  // The validator itself: nested loops pushing onto `errors`

  method ValidateWorkflow(store: WorkflowStore.Store) returns (r: Report)
    ensures r.errors == WorkflowErrors(store.workflow.tasks, store.actions)
    ensures r.valid <==> r.errors == []
    ensures r.valid <==> WellFormed(store.workflow.tasks, store.actions)
  {
    var tasks, actions := store.workflow.tasks, store.actions;
    var errors: seq<ValidationError> := [];
    var i := 0;
    assert tasks[0..] == tasks;
    while i < |tasks|
      invariant 0 <= i <= |tasks|
      invariant errors + WorkflowErrors(tasks[i..], actions) == WorkflowErrors(tasks, actions)
    {
      ghost var rest := WorkflowErrors(tasks[i + 1..], actions);
      assert tasks[i..][1..] == tasks[i + 1..];
      assert WorkflowErrors(tasks[i..], actions) == TaskErrors(tasks[i], actions) + rest;
      Assoc(errors, TaskErrors(tasks[i], actions), rest);
      errors := CheckTask(errors, tasks[i], actions);
      i := i + 1;
    }
    ValidIffWellFormed(tasks, actions);
    r := Report(errors == [], errors);
  }

  /** The body of the outer loop: the name check, then each listed id in order. */
  method CheckTask(errors: seq<ValidationError>, task: Task, actions: map<string, Action>)
    returns (out: seq<ValidationError>)
    ensures out == errors + TaskErrors(task, actions)
  {
    out := errors;
    if Trim(task.name) == "" {
      out := out + [TaskHasNoName(task.id)];
    }
    ghost var named, listed := NameErrors(task), ListErrors(task.id, task.actions, actions);
    assert out == errors + named;
    assert TaskErrors(task, actions) == named + listed;
    out := CheckActionList(out, task.id, task.actions, actions);
    Assoc(errors, named, listed);
  }

  /** The inner loop: each listed id in order. */
  method CheckActionList(errors: seq<ValidationError>, taskId: string, ids: seq<string>, actions: map<string, Action>)
    returns (out: seq<ValidationError>)
    ensures out == errors + ListErrors(taskId, ids, actions)
  {
    out := errors;
    var j := 0;
    while j < |ids|
      invariant 0 <= j <= |ids|
      invariant out == errors + ListErrors(taskId, ids[..j], actions)
    {
      ghost var before := out;
      out := CheckListedAction(out, taskId, ids[j], actions);
      ListErrorsSnoc(taskId, ids, j, actions);
      Extend(errors, before, out, ListErrors(taskId, ids[..j], actions), ListedErrors(taskId, ids[j], actions),
             ListErrors(taskId, ids[..j + 1], actions));
      j := j + 1;
    }
    assert ids[..|ids|] == ids;
  }

  /** The body of the inner loop: the checks for one listed id, in order; a
      dangling id stops there. */
  method CheckListedAction(errors: seq<ValidationError>, taskId: string, actionId: string, actions: map<string, Action>)
    returns (out: seq<ValidationError>)
    ensures out == errors + ListedErrors(taskId, actionId, actions)
  {
    if actionId !in actions {
      out := errors + [MissingAction(taskId, actionId)];
      return;
    }
    var action := actions[actionId];
    ghost var l, r, t := LinkErrors(actionId, action, actions), RetryErrors(actionId, action.flow.retry),
                         TimeoutErrors(actionId, action.flow.timeout, actions);
    assert ListedErrors(taskId, actionId, actions) == ActionErrors(actionId, action, actions) == l + r + t;
    out := CheckLinks(errors, actionId, action, actions);
    out := CheckRetry(out, actionId, action.flow.retry);
    out := CheckTimeout(out, actionId, action.flow.timeout, actions);
    Assoc(errors, l, r);
    Assoc(errors, l + r, t);
  }

  method CheckLinks(errors: seq<ValidationError>, actionId: string, action: Action, actions: map<string, Action>)
    returns (out: seq<ValidationError>)
    ensures out == errors + LinkErrors(actionId, action, actions)
  {
    out := errors;
    if action.kind == "" {
      out := out + [ActionHasNoType(actionId)];
    }
    if action.flow.next.Linked? && action.flow.next.target != "" && action.flow.next.target !in actions {
      out := out + [DanglingNext(actionId, action.flow.next.target)];
    }
    if Truthy(action.flow.nextIf) && action.flow.nextIf.value !in actions {
      out := out + [DanglingNextIf(actionId, action.flow.nextIf.value)];
    }
  }

  method CheckRetry(errors: seq<ValidationError>, actionId: string, retry: Option<RetryConfig>)
    returns (out: seq<ValidationError>)
    ensures out == errors + RetryErrors(actionId, retry)
  {
    out := errors;
    if retry.Some? {
      var r := retry.value;
      if r.strategy !in ["fixed", "exponential"] {
        out := out + [BadRetryStrategy(actionId, r.strategy)];
      }
      if r.maxAttempts < 1.0 {
        out := out + [BadMaxAttempts(actionId, r.maxAttempts)];
      }
      if r.delay < 0.0 {
        out := out + [BadDelay(actionId, r.delay)];
      }
    }
  }

  method CheckTimeout(errors: seq<ValidationError>, actionId: string, timeout: Option<TimeoutConfig>, actions: map<string, Action>)
    returns (out: seq<ValidationError>)
    ensures out == errors + TimeoutErrors(actionId, timeout, actions)
  {
    out := errors;
    if timeout.Some? {
      var t := timeout.value;
      if t.duration < 0.0 {
        out := out + [BadTimeoutDuration(actionId, t.duration)];
      }
      if Truthy(t.onTimeout) && t.onTimeout.value !in actions {
        out := out + [DanglingOnTimeout(actionId, t.onTimeout.value)];
      }
    }
  }
}
