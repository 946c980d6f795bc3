/** The value-level effect of each store operation on the task list and the
    action map, and the bidirectional consistency invariant between the two:
    every id a task lists is in the map and owned by that task, and every
    action in the map is listed by the task its `taskId` names. */
module StoreOps {
  import opened WorkflowTypes

  /** The task `addTask` creates. */
  function NewTask(id: string, name: string): Task {
    Task(id, name, Some(""), [])
  }

  /** The action `addAction` creates: empty flow, empty parameters, empty
      description, no outputs. */
  function NewAction(id: string, taskId: string, kind: string, name: string, x: int, y: int): Action {
    Action(id, taskId, name, Some(""), kind, EmptyFlow, None, Some(map[]), x, y)
  }

  /** `tasks.find(t => t.id === id)`: the first task with the id, if any. */
  function FindTask(ts: seq<Task>, id: string): (r: Option<Task>)
    ensures r.None? <==> id !in TaskIds(ts)
    ensures r.Some? ==> r.value in ts && r.value.id == id
    ensures r.Some? ==> exists k :: 0 <= k < |ts| && ts[k] == r.value && forall j :: 0 <= j < k ==> ts[j].id != id
  {
    if ts == [] then None
    else if ts[0].id == id then Some(ts[0])
    else
      assert TaskIds(ts) == {ts[0].id} + TaskIds(ts[1..]);
      var r := FindTask(ts[1..], id);
      if r.Some? then
        var k :| 0 <= k < |ts[1..]| && ts[1..][k] == r.value && forall j :: 0 <= j < k ==> ts[1..][j].id != id;
        assert ts[k + 1] == r.value && forall j :: 0 <= j < k + 1 ==> ts[j].id != id;
        r
      else r
  }

  /** `tasks.filter(t => t.id !== id)`. */
  function RemoveTasks(ts: seq<Task>, id: string): (r: seq<Task>)
    ensures forall t :: t in r <==> t in ts && t.id != id
    ensures id !in TaskIds(ts) ==> r == ts
  {
    if ts == [] then []
    else (if ts[0].id == id then [] else [ts[0]]) + RemoveTasks(ts[1..], id)
  }

  /** `filter` keeps order and multiplicity: filtering a concatenation is
      concatenating the filtered parts. */
  lemma {:induction false} RemoveTasksAppend(a: seq<Task>, b: seq<Task>, id: string)
    ensures RemoveTasks(a + b, id) == RemoveTasks(a, id) + RemoveTasks(b, id)
  {
    SplitAppend(a, b);
    if a != [] {
      RemoveTasksAppend(a[1..], b, id);
      Assoc(if a[0].id == id then [] else [a[0]], RemoveTasks(a[1..], id), RemoveTasks(b, id));
    }
  }

  /** The action ids `deleteTask(id)` removes from the map: those listed by the
      first task with that id, or none. */
  function OwnedIds(ts: seq<Task>, id: string): set<string> {
    match FindTask(ts, id)
    case None => {}
    case Some(t) => Elems(t.actions)
  }

  /** `ids.filter(x => x !== a)`. */
  function FilterId(ids: seq<string>, a: string): (r: seq<string>)
    ensures forall x :: x in r <==> x in ids && x != a
    ensures a !in ids ==> r == ids
  {
    if ids == [] then []
    else (if ids[0] == a then [] else [ids[0]]) + FilterId(ids[1..], a)
  }

  /** `filter` keeps order and multiplicity: filtering a concatenation is
      concatenating the filtered parts. */
  lemma {:induction false} FilterIdAppend(a: seq<string>, b: seq<string>, x: string)
    ensures FilterId(a + b, x) == FilterId(a, x) + FilterId(b, x)
  {
    SplitAppend(a, b);
    if a != [] {
      FilterIdAppend(a[1..], b, x);
      Assoc(if a[0] == x then [] else [a[0]], FilterId(a[1..], x), FilterId(b, x));
    }
  }

  /** The task list after `addAction`: `id` appended to every task whose id is `taskId`. */
  function AppendActionTo(ts: seq<Task>, taskId: string, id: string): seq<Task> {
    seq(|ts|, i requires 0 <= i < |ts| =>
      if ts[i].id == taskId then ts[i].(actions := ts[i].actions + [id]) else ts[i])
  }

  /** The task list after `deleteAction`: `a` filtered out of every task whose id is `owner`. */
  function DropActionFrom(ts: seq<Task>, owner: string, a: string): seq<Task> {
    seq(|ts|, i requires 0 <= i < |ts| =>
      if ts[i].id == owner then ts[i].(actions := FilterId(ts[i].actions, a)) else ts[i])
  }

  /** The action with its `flow.next` replaced and every other flow field kept. */
  function WithNext(a: Action, n: NextRef): Action {
    a.(flow := a.flow.(next := n))
  }

  /** `Partial<Action>`: a present field overrides. For the optional fields a
      present key may carry `undefined`, hence the nested Option. */
  datatype ActionPatch = ActionPatch(
    id: Option<string>,
    taskId: Option<string>,
    name: Option<string>,
    description: Option<Option<string>>,
    kind: Option<string>,
    flow: Option<ActionFlow>,
    outputs: Option<Option<map<string, string>>>,
    parameters: Option<Option<map<string, Scalar>>>,
    x: Option<int>,
    y: Option<int>)

  function Pick<T>(o: Option<T>, keep: T): T {
    if o.Some? then o.value else keep
  }

  /** `{ ...a, ...p }`: a field the patch carries is taken from the patch,
      every other field keeps the action's value. */
  function Merge(a: Action, p: ActionPatch): (r: Action)
    ensures r.id == (if p.id.Some? then p.id.value else a.id)
    ensures r.taskId == (if p.taskId.Some? then p.taskId.value else a.taskId)
    ensures r.name == (if p.name.Some? then p.name.value else a.name)
    ensures r.description == (if p.description.Some? then p.description.value else a.description)
    ensures r.kind == (if p.kind.Some? then p.kind.value else a.kind)
    ensures r.flow == (if p.flow.Some? then p.flow.value else a.flow)
    ensures r.outputs == (if p.outputs.Some? then p.outputs.value else a.outputs)
    ensures r.parameters == (if p.parameters.Some? then p.parameters.value else a.parameters)
    ensures r.x == (if p.x.Some? then p.x.value else a.x)
    ensures r.y == (if p.y.Some? then p.y.value else a.y)
    ensures p == ActionPatch(None, None, None, None, None, None, None, None, None, None) ==> r == a
  {
    Action(
      Pick(p.id, a.id), Pick(p.taskId, a.taskId), Pick(p.name, a.name),
      Pick(p.description, a.description), Pick(p.kind, a.kind), Pick(p.flow, a.flow),
      Pick(p.outputs, a.outputs), Pick(p.parameters, a.parameters),
      Pick(p.x, a.x), Pick(p.y, a.y))
  }

  /** `{ ...p, ...q }`: the fields of `q` win. */
  function Then(p: ActionPatch, q: ActionPatch): ActionPatch {
    ActionPatch(
      if q.id.Some? then q.id else p.id,
      if q.taskId.Some? then q.taskId else p.taskId,
      if q.name.Some? then q.name else p.name,
      if q.description.Some? then q.description else p.description,
      if q.kind.Some? then q.kind else p.kind,
      if q.flow.Some? then q.flow else p.flow,
      if q.outputs.Some? then q.outputs else p.outputs,
      if q.parameters.Some? then q.parameters else p.parameters,
      if q.x.Some? then q.x else p.x,
      if q.y.Some? then q.y else p.y)
  }

  /** Two successive shallow merges are one merge of the combined patch, and
      repeating a merge changes nothing further. */
  lemma MergeCompose(a: Action, p: ActionPatch, q: ActionPatch)
    ensures Merge(Merge(a, p), q) == Merge(a, Then(p, q))
    ensures Merge(Merge(a, p), p) == Merge(a, p)
  {
  }

  /** A merge leaves the identity fields alone exactly when the patch omits them
      or repeats their values. */
  lemma MergeKeepsIdentity(a: Action, p: ActionPatch)
    ensures (Merge(a, p).id == a.id && Merge(a, p).taskId == a.taskId)
        <==> (p.id.None? || p.id.value == a.id) && (p.taskId.None? || p.taskId.value == a.taskId)
  {
  }

  // ---------------------------------------------------------------------
  // Bidirectional consistency

  ghost predicate UniqueTaskIds(ts: seq<Task>) {
    forall i, j :: 0 <= i < j < |ts| ==> ts[i].id != ts[j].id
  }

  /** Some task with id `owner` lists `x`. */
  ghost predicate ListedBy(ts: seq<Task>, owner: string, x: string) {
    exists i :: 0 <= i < |ts| && ts[i].id == owner && x in ts[i].actions
  }

  /** Every id a task lists is in the map, and that action names the task as its owner. */
  ghost predicate ListsResolve(ts: seq<Task>, m: map<string, Action>) {
    forall i, x :: 0 <= i < |ts| && x in ts[i].actions ==> x in m && m[x].taskId == ts[i].id
  }

  /** Every action in the map is stored under its own id and listed by its owner. */
  ghost predicate MapListed(ts: seq<Task>, m: map<string, Action>) {
    forall x :: x in m ==> m[x].id == x && ListedBy(ts, m[x].taskId, x)
  }

  ghost predicate Consistent(wf: Workflow, m: map<string, Action>) {
    UniqueTaskIds(wf.tasks) && ListsResolve(wf.tasks, m) && MapListed(wf.tasks, m)
  }

  /** The empty store is consistent. */
  lemma InitialConsistent()
    ensures Consistent(DefaultWorkflow, map[])
  {
  }

  /** Appending a task with a fresh id and no actions keeps consistency. */
  lemma AddTaskPreservesConsistency(wf: Workflow, m: map<string, Action>, id: string, name: string)
    requires Consistent(wf, m) && id !in TaskIds(wf.tasks)
    ensures Consistent(wf.(tasks := wf.tasks + [NewTask(id, name)]), m)
  {
    var ts, ts' := wf.tasks, wf.tasks + [NewTask(id, name)];
    forall x | x in m ensures ListedBy(ts', m[x].taskId, x) {
      var i :| 0 <= i < |ts| && ts[i].id == m[x].taskId && x in ts[i].actions;
      assert ts'[i] == ts[i];
    }
    forall i, j | 0 <= i < j < |ts'| ensures ts'[i].id != ts'[j].id {
      if j == |ts| {
        assert ts[i] in ts;
      }
    }
  }

  lemma UniqueTail(ts: seq<Task>)
    requires ts != [] && UniqueTaskIds(ts)
    ensures UniqueTaskIds(ts[1..])
    ensures forall u :: u in ts[1..] ==> u.id != ts[0].id
  {
    var tail := ts[1..];
    forall i, j | 0 <= i < j < |tail| ensures tail[i].id != tail[j].id {
      assert tail[i] == ts[i + 1] && tail[j] == ts[j + 1];
    }
    forall u | u in tail ensures u.id != ts[0].id {
      var k :| 0 <= k < |tail| && tail[k] == u;
      assert tail[k] == ts[k + 1];
    }
  }

  /** Putting a task in front of a list none of whose ids it shares keeps ids unique. */
  lemma ConsUnique(h: Task, tail: seq<Task>)
    requires UniqueTaskIds(tail)
    requires forall u :: u in tail ==> u.id != h.id
    ensures UniqueTaskIds([h] + tail)
  {
    var r := [h] + tail;
    forall i, j | 0 <= i < j < |r| ensures r[i].id != r[j].id {
      assert r[j] == tail[j - 1];
      if i == 0 {
        assert tail[j - 1] in tail;
      } else {
        assert r[i] == tail[i - 1];
      }
    }
  }

  lemma {:induction false} RemoveTasksUnique(ts: seq<Task>, id: string)
    requires UniqueTaskIds(ts)
    ensures UniqueTaskIds(RemoveTasks(ts, id))
  {
    if ts != [] {
      var tail := RemoveTasks(ts[1..], id);
      UniqueTail(ts);
      RemoveTasksUnique(ts[1..], id);
      if ts[0].id != id {
        assert forall u :: u in tail ==> u in ts[1..];
        ConsUnique(ts[0], tail);
        assert RemoveTasks(ts, id) == [ts[0]] + tail;
      } else {
        assert RemoveTasks(ts, id) == [] + tail == tail;
      }
    }
  }

  /** The first task with a given id is the only one, when ids are unique. */
  lemma FindTaskUnique(ts: seq<Task>, id: string, i: int)
    requires UniqueTaskIds(ts) && 0 <= i < |ts| && ts[i].id == id
    ensures FindTask(ts, id) == Some(ts[i])
  {
    assert ts[i] in ts;
    var t0 := FindTask(ts, id).value;
    var k :| 0 <= k < |ts| && ts[k] == t0;
    assert k == i;
  }

  /** deleteTask keeps consistency: the task goes, and with it exactly the
      actions it listed. */
  lemma DeleteTaskPreservesConsistency(wf: Workflow, m: map<string, Action>, t: string)
    requires Consistent(wf, m)
    ensures Consistent(wf.(tasks := RemoveTasks(wf.tasks, t)), m - OwnedIds(wf.tasks, t))
  {
    RemoveTasksUnique(wf.tasks, t);
    OwnedIdsBelongTo(wf.tasks, m, t);
    ResolvesAfterRemoval(wf.tasks, RemoveTasks(wf.tasks, t), m, t, OwnedIds(wf.tasks, t));
    DeleteTaskListed(wf.tasks, m, t);
  }

  /** Keeping only tasks other than `t`, and dropping from the map only
      actions owned by `t`, leaves every kept list resolved. */
  lemma ResolvesAfterRemoval(ts: seq<Task>, kept: seq<Task>, m: map<string, Action>, t: string, gone: set<string>)
    requires ListsResolve(ts, m)
    requires forall u :: u in kept ==> u in ts && u.id != t
    requires forall y :: y in gone ==> y in m && m[y].taskId == t
    ensures ListsResolve(kept, m - gone)
  {
    forall i, x | 0 <= i < |kept| && x in kept[i].actions
      ensures x in m - gone && (m - gone)[x].taskId == kept[i].id
    {
      assert kept[i] in kept;
      var k :| 0 <= k < |ts| && ts[k] == kept[i];
      assert x in ts[k].actions;
    }
  }

  lemma DeleteTaskListed(ts: seq<Task>, m: map<string, Action>, t: string)
    requires UniqueTaskIds(ts) && MapListed(ts, m)
    ensures MapListed(RemoveTasks(ts, t), m - OwnedIds(ts, t))
  {
    var ts', m' := RemoveTasks(ts, t), m - OwnedIds(ts, t);
    forall x | x in m' ensures m'[x].id == x && ListedBy(ts', m'[x].taskId, x) {
      DeleteTaskKeepsOwner(ts, m, t, x);
    }
  }

  /** Everything deleteTask(t) removes from the map belongs to `t`. */
  lemma OwnedIdsBelongTo(ts: seq<Task>, m: map<string, Action>, t: string)
    requires ListsResolve(ts, m)
    ensures forall y :: y in OwnedIds(ts, t) ==> y in m && m[y].taskId == t
  {
    if FindTask(ts, t).Some? {
      var t0 := FindTask(ts, t).value;
      var k0 :| 0 <= k0 < |ts| && ts[k0] == t0;
      forall y | y in OwnedIds(ts, t) ensures y in m && m[y].taskId == t {
        assert y in ts[k0].actions;
      }
    }
  }

  /** Every task with id `t` lists only ids deleteTask(t) removes. */
  lemma OwnedIdsCover(ts: seq<Task>, t: string)
    requires UniqueTaskIds(ts)
    ensures forall i, y :: 0 <= i < |ts| && ts[i].id == t && y in ts[i].actions ==> y in OwnedIds(ts, t)
  {
    forall i | 0 <= i < |ts| && ts[i].id == t
      ensures Elems(ts[i].actions) == OwnedIds(ts, t)
    {
      FindTaskUnique(ts, t, i);
    }
  }

  /** An action deleteTask(t) keeps is still listed by its owner afterwards. */
  lemma DeleteTaskKeepsOwner(ts: seq<Task>, m: map<string, Action>, t: string, x: string)
    requires UniqueTaskIds(ts) && MapListed(ts, m)
    requires x in m && x !in OwnedIds(ts, t)
    ensures ListedBy(RemoveTasks(ts, t), m[x].taskId, x)
  {
    var ts' := RemoveTasks(ts, t);
    var i :| 0 <= i < |ts| && ts[i].id == m[x].taskId && x in ts[i].actions;
    OwnedIdsCover(ts, t);
    assert ts[i].id != t;
    assert ts[i] in ts';
    var j :| 0 <= j < |ts'| && ts'[j] == ts[i];
  }

  /** On a consistent store, deleteTask(t) removes exactly the actions whose
      `taskId` is `t`: the cascade through the task's list agrees with the
      cascade by back-reference. */
  lemma DeleteTaskCascade(wf: Workflow, m: map<string, Action>, t: string)
    requires Consistent(wf, m)
    ensures forall x :: x in m ==> (x in OwnedIds(wf.tasks, t) <==> m[x].taskId == t)
  {
    var ts := wf.tasks;
    forall x | x in m ensures x in OwnedIds(ts, t) <==> m[x].taskId == t {
      var i :| 0 <= i < |ts| && ts[i].id == m[x].taskId && x in ts[i].actions;
      if m[x].taskId == t {
        FindTaskUnique(ts, t, i);
      }
      if x in OwnedIds(ts, t) {
        var t0 := FindTask(ts, t).value;
        var k0 :| 0 <= k0 < |ts| && ts[k0] == t0;
        assert x in ts[k0].actions;
      }
    }
  }

  /** Without consistency the cascade by list misses actions: here `a1` is
      listed by task `t1` but its `taskId` was rewritten to `t2` (as
      updateAction allows); deleting `t2` keeps `a1`, whose owner is now gone. */
  lemma DeleteTaskCascadeGap()
    ensures var a := NewAction("a1", "t2", "cmd", "A", 0, 0);
            var ts := [Task("t1", "T1", Some(""), ["a1"]), NewTask("t2", "T2")];
            var m := map["a1" := a];
            && !Consistent(Workflow("1.0", map[], map[], ts), m)
            && "a1" in m - OwnedIds(ts, "t2")
            && "t2" !in TaskIds(RemoveTasks(ts, "t2"))
  {
    var a := NewAction("a1", "t2", "cmd", "A", 0, 0);
    var ts := [Task("t1", "T1", Some(""), ["a1"]), NewTask("t2", "T2")];
    assert "a1" in ts[0].actions && a.taskId != ts[0].id;
    assert ts[1..] == [ts[1]];
    assert FindTask(ts, "t2") == Some(ts[1]);
    assert RemoveTasks(ts, "t2") == [ts[0]];
    assert OwnedIds(ts, "t2") == {};
    assert "a1" in map["a1" := a] - OwnedIds(ts, "t2");
    assert !Consistent(Workflow("1.0", map[], map[], ts), map["a1" := a]);
  }

  /** addAction under an existing task keeps consistency, provided the
      generated id is not already in the map. */
  lemma AddActionPreservesConsistency(wf: Workflow, m: map<string, Action>, taskId: string,
                                      id: string, kind: string, name: string, x: int, y: int)
    requires Consistent(wf, m) && taskId in TaskIds(wf.tasks) && id !in m
    ensures Consistent(wf.(tasks := AppendActionTo(wf.tasks, taskId, id)),
                       m[id := NewAction(id, taskId, kind, name, x, y)])
  {
    var ts, ts' := wf.tasks, AppendActionTo(wf.tasks, taskId, id);
    var m' := m[id := NewAction(id, taskId, kind, name, x, y)];
    forall i, z | 0 <= i < |ts'| && z in ts'[i].actions
      ensures z in m' && m'[z].taskId == ts'[i].id
    {
      if z != id {
        assert z in ts[i].actions;
      }
    }
    forall z | z in m' ensures m'[z].id == z && ListedBy(ts', m'[z].taskId, z) {
      if z == id {
        var t :| t in ts && t.id == taskId;
        var i :| 0 <= i < |ts| && ts[i] == t;
        assert id in ts'[i].actions;
      } else {
        var i :| 0 <= i < |ts| && ts[i].id == m[z].taskId && z in ts[i].actions;
        assert z in ts'[i].actions;
      }
    }
  }

  /** addAction under a task id that no task has: the task list is unchanged,
      the new action sits in the map listed by no task, and consistency is lost. */
  lemma AddActionToMissingTask(wf: Workflow, m: map<string, Action>, taskId: string,
                               id: string, kind: string, name: string, x: int, y: int)
    requires taskId !in TaskIds(wf.tasks)
    ensures AppendActionTo(wf.tasks, taskId, id) == wf.tasks
    ensures !Consistent(wf, m[id := NewAction(id, taskId, kind, name, x, y)])
  {
    var ts := wf.tasks;
    forall i | 0 <= i < |ts| ensures AppendActionTo(ts, taskId, id)[i] == ts[i] {
      assert ts[i] in ts;
    }
    forall i | 0 <= i < |ts| ensures ts[i].id != taskId {
      assert ts[i] in ts;
    }
    var m' := m[id := NewAction(id, taskId, kind, name, x, y)];
    assert id in m' && m'[id].taskId == taskId && !ListedBy(ts, taskId, id);
  }

  /** deleteAction of a mapped id keeps consistency: the action leaves the map
      and its owner's list together. */
  lemma DeleteActionPreservesConsistency(wf: Workflow, m: map<string, Action>, a: string)
    requires Consistent(wf, m) && a in m
    ensures Consistent(wf.(tasks := DropActionFrom(wf.tasks, m[a].taskId, a)), m - {a})
    ensures forall t :: t in DropActionFrom(wf.tasks, m[a].taskId, a) ==> a !in t.actions
  {
    DropActionResolves(wf.tasks, m, a);
    DropActionListed(wf.tasks, m, a);
  }

  /** After deleteAction(a) every listed id resolves, and `a` is listed nowhere. */
  lemma DropActionResolves(ts: seq<Task>, m: map<string, Action>, a: string)
    requires ListsResolve(ts, m) && a in m
    ensures ListsResolve(DropActionFrom(ts, m[a].taskId, a), m - {a})
    ensures forall t :: t in DropActionFrom(ts, m[a].taskId, a) ==> a !in t.actions
  {
    var ts' := DropActionFrom(ts, m[a].taskId, a);
    forall i, z | 0 <= i < |ts'| && z in ts'[i].actions
      ensures z in m - {a} && (m - {a})[z].taskId == ts'[i].id && z != a
    {
      assert z in ts[i].actions;
    }
    forall t | t in ts' ensures a !in t.actions {
      var i :| 0 <= i < |ts'| && ts'[i] == t;
    }
  }

  /** After deleteAction(a) every remaining action is still listed by its owner. */
  lemma DropActionListed(ts: seq<Task>, m: map<string, Action>, a: string)
    requires MapListed(ts, m) && a in m
    ensures MapListed(DropActionFrom(ts, m[a].taskId, a), m - {a})
  {
    var ts', m' := DropActionFrom(ts, m[a].taskId, a), m - {a};
    forall z | z in m' ensures m'[z].id == z && ListedBy(ts', m'[z].taskId, z) {
      var i :| 0 <= i < |ts| && ts[i].id == m[z].taskId && z in ts[i].actions;
      assert z in ts'[i].actions;
    }
  }

  /** Replacing the stored action under `a` keeps consistency exactly when the
      replacement keeps the key as its id and keeps the owner. This covers
      updateAction (whose patch may rewrite `id` or `taskId`), linkActions and
      unlinkAction. */
  lemma ReplaceActionConsistency(wf: Workflow, m: map<string, Action>, a: string, b: Action)
    requires Consistent(wf, m) && a in m
    ensures Consistent(wf, m[a := b]) <==> b.id == a && b.taskId == m[a].taskId
  {
    var ts, m' := wf.tasks, m[a := b];
    assert a in m' && m'[a] == b;
    if Consistent(wf, m') {
      assert ListedBy(ts, b.taskId, a);
      var i :| 0 <= i < |ts| && ts[i].id == b.taskId && a in ts[i].actions;
    }
    if b.id == a && b.taskId == m[a].taskId {
      forall z | z in m' ensures m'[z].id == z && ListedBy(ts, m'[z].taskId, z) {
        assert ListedBy(ts, m[z].taskId, z);
      }
    }
  }

  /** Rewriting `flow.next` (linking or unlinking) never affects consistency. */
  lemma WithNextPreservesConsistency(wf: Workflow, m: map<string, Action>, a: string, n: NextRef)
    requires Consistent(wf, m) && a in m
    ensures Consistent(wf, m[a := WithNext(m[a], n)])
  {
    ReplaceActionConsistency(wf, m, a, WithNext(m[a], n));
  }
}
